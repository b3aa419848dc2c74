/** What one operation of the accounting export protocol can do to entries, artifacts and shelves. */
module AccountingSteps {
  import opened Prelude
  import opened Accounting

  // ----- one entry -----

  predicate SameRecord(e: Entry, f: Entry) {
    && EffectOf(e) == EffectOf(f) && e.job == f.job && e.sourceRevision == f.sourceRevision
    && e.mappingRevision == f.mappingRevision && e.kind == f.kind && e.invoiceId == f.invoiceId && e.pence == f.pence
    && e.reference == f.reference && e.contentHash == f.contentHash
  }

  predicate MaySend(status: Status) {
    status == Pending || status == ConfirmedAbsent || status == RateLimited
  }

  /** An entry that may still be sent has no external object, and a pushed entry has one. */
  predicate Tidy(e: Entry) {
    (MaySend(e.status) ==> e.externalId.None?) && (e.status == Pushed ==> e.externalId.Some?)
  }

  /** How one operation may change an entry. */
  predicate EntryStep(e: Entry, f: Entry) {
    && SameRecord(e, f)
    && e.attempts <= f.attempts <= e.attempts + 1
    && (Tidy(e) ==> Tidy(f))
    && (Tidy(e) && e.externalId.Some? ==> f.externalId == e.externalId && f.attempts == e.attempts)
  }

  lemma ClassifiedStep(h: Digests, e: Entry, artifact: Option<Artifact>, found: seq<External>)
    ensures EntryStep(e, Classified(h, e, artifact, found))
    ensures Classified(h, e, artifact, found).attempts == e.attempts
  {
  }

  // ----- what stays -----

  /** Transports keep their shelves and connections. */
  ghost predicate SameWiring(st: State, after: State) {
    && (forall r :: r in after.transports <==> r in st.transports)
    && (forall r :: r in st.transports ==>
          after.transports[r].shelf == st.transports[r].shelf && after.transports[r].connection == st.transports[r].connection)
    && |after.shelves| == |st.shelves| && after.defaultRoute == st.defaultRoute
  }

  ghost predicate Kept(st: State, after: State) {
    SameWiring(st, after) && after.routes == st.routes && after.sources == st.sources
  }

  ghost predicate Idle(st: State, after: State) {
    Kept(st, after) && after.entries == st.entries && after.artifacts == st.artifacts && after.shelves == st.shelves
  }

  function ShelfOf(st: State, k: RouteKey): nat
    requires Wired(st)
  {
    st.transports[CurrentRoute(st, k)].shelf
  }

  lemma WiringCurrent(st: State, after: State, k: RouteKey)
    requires Wired(st) && Wired(after) && SameWiring(st, after) && after.routes == st.routes
    ensures ShelfOf(after, k) == ShelfOf(st, k)
  {
  }

  // ----- reconciliation -----

  /** Reconciling only classifies the one entry by what its current route shows. */
  ghost predicate Reconciled(h: Digests, st: State, s: Scope, after: State)
    requires Wired(st)
  {
    var i := IndexOfEntry(st.entries, ScopeEffect(s));
    && Kept(st, after) && after.artifacts == st.artifacts && after.shelves == st.shelves
    && i < |st.entries| && st.entries[i].job == s.job
    && after.entries == st.entries[i := Classified(h, st.entries[i], ArtifactAt(st, ScopeEffect(s)),
                                                     Find(st, TransportOf(st, s), st.entries[i].reference, s))]
  }

  lemma ReconcileReconciles(h: Digests, st: State, ctx: Context, s: Scope, now: int)
    requires Wired(st)
    ensures var after := Reconcile(h, st, ctx, s, now).0; after == st || Reconciled(h, st, s, after)
  {
  }

  // ----- delivery -----

  /** The shelves after a send: as before, or with the one new object at the end of the route's shelf. */
  ghost predicate Stored(st: State, s: Scope, e: Entry, target: Target, after: State)
    requires Wired(st)
  {
    var n := ShelfOf(st, RouteKeyOf(s));
    || after.shelves == st.shelves
    || after.shelves == st.shelves[n := st.shelves[n] + [ObjectFor(st.shelves[n], e.reference, e.contentHash, target, s.tenant)]]
  }

  /** Creating: nothing was found under the reference, the attempt is counted, and at most one object stored. */
  ghost predicate Creates(st: State, s: Scope, i: nat, target: Target, after: State)
    requires Wired(st) && i < |st.entries|
  {
    var e := st.entries[i];
    && Kept(st, after) && after.artifacts == st.artifacts
    && Filter(st.shelves[ShelfOf(st, RouteKeyOf(s))], Matching(s.tenant, s.company, e.reference)) == []
    && Stored(st, s, e, target, after)
    && |after.entries| == |st.entries| && after.entries == st.entries[i := after.entries[i]]
    && after.entries[i].attempts == e.attempts + 1
    && (MaySend(e.status) ==> EntryStep(e, after.entries[i]))
  }

  lemma SendStores(st: State, s: Scope, e: Entry, target: Target)
    requires Wired(st)
    ensures var sent := Send(st, CurrentRoute(st, RouteKeyOf(s)), e.reference, e.contentHash, target, s.tenant).0;
            Kept(st, sent) && sent.artifacts == st.artifacts && Stored(st, s, e, target, sent)
  {
    var shelf := st.shelves[ShelfOf(st, RouteKeyOf(s))];
    assert shelf + [] == shelf;
  }

  lemma AttemptedStep(e: Entry, answer: Sent, now: int)
    ensures Attempted(e, answer, now).attempts == e.attempts + 1
    ensures MaySend(e.status) ==> EntryStep(e, Attempted(e, answer, now))
  {
  }

  lemma CreateCreates(h: Digests, st: State, ctx: Context, s: Scope, i: nat, target: Target, now: int)
    requires Wired(st) && i < |st.entries|
    requires Find(st, TransportOf(st, s), st.entries[i].reference, s) == []
    ensures Creates(st, s, i, target, Create(h, st, ctx, s, i, target, now).0)
  {
    var e := st.entries[i];
    SendStores(st, s, e, target);
    var (sent, answer) := Send(st, CurrentRoute(st, RouteKeyOf(s)), e.reference, e.contentHash, target, s.tenant);
    AttemptedStep(e, answer, now);
  }

  /** What delivering a recorded entry may do. A pushed entry is left alone. */
  ghost predicate Delivered(st: State, s: Scope, target: Target, after: State)
    requires Wired(st)
  {
    var i := IndexOfEntry(st.entries, ScopeEffect(s));
    && Kept(st, after) && after.artifacts == st.artifacts
    && i < |st.entries| == |after.entries|
    && after.entries == st.entries[i := after.entries[i]] && EntryStep(st.entries[i], after.entries[i])
    && (st.entries[i].status == Pushed ==> after.entries == st.entries && after.shelves == st.shelves)
    && Stored(st, s, st.entries[i], target, after)
    && (after.shelves != st.shelves || after.entries[i].attempts != st.entries[i].attempts ==>
          Filter(st.shelves[ShelfOf(st, RouteKeyOf(s))], Matching(s.tenant, s.company, st.entries[i].reference)) == [])
  }

  lemma ReconciledDelivers(h: Digests, st: State, s: Scope, i: nat, target: Target, after: State)
    requires Wired(st) && i < |st.entries| && i == IndexOfEntry(st.entries, ScopeEffect(s)) && MaySend(st.entries[i].status)
    requires after == st || Reconciled(h, st, s, after)
    ensures Delivered(st, s, target, after)
  {
    var e := st.entries[i];
    assert st.entries == st.entries[i := e];
    ClassifiedStep(h, e, ArtifactAt(st, ScopeEffect(s)), Find(st, TransportOf(st, s), e.reference, s));
  }

  lemma AttemptDelivers(h: Digests, st: State, ctx: Context, s: Scope, i: nat, target: Target, now: int)
    requires Wired(st) && i < |st.entries| && i == IndexOfEntry(st.entries, ScopeEffect(s)) && MaySend(st.entries[i].status)
    ensures Delivered(st, s, target, Attempt(h, st, ctx, s, i, target, now).0)
  {
    var e := st.entries[i];
    if Find(st, TransportOf(st, s), e.reference, s) != [] {
      ReconcileReconciles(h, st, ctx, s, now);
      ReconciledDelivers(h, st, s, i, target, Reconcile(h, st, ctx, s, now).0);
    } else {
      CreateCreates(h, st, ctx, s, i, target, now);
    }
  }

  lemma SameIndex(entries: seq<Entry>, i: nat, f: Entry, k: Effect)
    requires i < |entries| && i == IndexOfEntry(entries, k) && EffectOf(f) == k
    ensures IndexOfEntry(entries[i := f], k) == i
  {
    var j := IndexOfEntry(entries[i := f], k);
    assert entries[i := f][i] == f;
  }

  function Readied(e: Entry): Entry {
    e.(status := ConfirmedAbsent)
  }

  lemma ReadiedDelivers(st: State, s: Scope, i: nat, target: Target, after: State)
    requires Wired(st) && i < |st.entries| && i == IndexOfEntry(st.entries, ScopeEffect(s))
    requires st.entries[i].status == RateLimited
    requires Delivered(WithEntry(st, i, Readied(st.entries[i])), s, target, after)
    ensures Delivered(st, s, target, after)
  {
    SameIndex(st.entries, i, Readied(st.entries[i]), ScopeEffect(s));
  }

  lemma RefusedDelivers(st: State, s: Scope, target: Target)
    requires Wired(st) && IndexOfEntry(st.entries, ScopeEffect(s)) < |st.entries|
    ensures Delivered(st, s, target, st)
  {
    var i := IndexOfEntry(st.entries, ScopeEffect(s));
    assert st.entries == st.entries[i := st.entries[i]];
  }

  /** Which attempt, if any, a delivery makes. */
  lemma DeliverAttempts(h: Digests, st: State, ctx: Context, s: Scope, a: Artifact, now: int)
    requires Wired(st) && IndexOfEntry(st.entries, ScopeEffect(s)) < |st.entries|
    ensures var i := IndexOfEntry(st.entries, ScopeEffect(s));
            var e := st.entries[i];
            var after := Deliver(h, st, ctx, s, a, now).0;
            if e.status == Pending || e.status == ConfirmedAbsent then after == Attempt(h, st, ctx, s, i, a.target, now).0
            else if e.status == RateLimited && e.retryAt.Some? && e.retryAt.value <= now
            then after == Attempt(h, WithEntry(st, i, Readied(e)), ctx, s, i, a.target, now).0
            else after == st
  {
    var i := IndexOfEntry(st.entries, ScopeEffect(s));
    var e := st.entries[i];
    assert st.entries[i := e] == st.entries;
    assert WithEntry(st, i, e) == st;
  }

  lemma AttemptedDelivers(h: Digests, st: State, ctx: Context, s: Scope, target: Target, now: int, after: State)
    requires Wired(st) && IndexOfEntry(st.entries, ScopeEffect(s)) < |st.entries|
    requires var i := IndexOfEntry(st.entries, ScopeEffect(s));
             var e := st.entries[i];
             if e.status == RateLimited then after == Attempt(h, WithEntry(st, i, Readied(e)), ctx, s, i, target, now).0
             else MaySend(e.status) && after == Attempt(h, st, ctx, s, i, target, now).0
    ensures Delivered(st, s, target, after)
  {
    var i := IndexOfEntry(st.entries, ScopeEffect(s));
    var e := st.entries[i];
    if e.status == RateLimited {
      SameIndex(st.entries, i, Readied(e), ScopeEffect(s));
      AttemptDelivers(h, WithEntry(st, i, Readied(e)), ctx, s, i, target, now);
      ReadiedDelivers(st, s, i, target, after);
    } else {
      AttemptDelivers(h, st, ctx, s, i, target, now);
    }
  }

  lemma DeliverDelivers(h: Digests, st: State, ctx: Context, s: Scope, a: Artifact, now: int)
    requires Wired(st) && IndexOfEntry(st.entries, ScopeEffect(s)) < |st.entries|
    ensures Delivered(st, s, a.target, Deliver(h, st, ctx, s, a, now).0)
  {
    var e := st.entries[IndexOfEntry(st.entries, ScopeEffect(s))];
    DeliverAttempts(h, st, ctx, s, a, now);
    RefusedDelivers(st, s, a.target);
    if e.status == Pending || e.status == ConfirmedAbsent || (e.status == RateLimited && e.retryAt.Some? && e.retryAt.value <= now) {
      AttemptedDelivers(h, st, ctx, s, a.target, now, Deliver(h, st, ctx, s, a, now).0);
    }
  }

  // ----- pushing -----

  /** A push first records its entry and artifact. */
  ghost predicate Records(h: Digests, st: State, s: Scope, a: Artifact, mid: State) {
    var k := ScopeEffect(s);
    && Kept(st, mid) && mid.shelves == st.shelves
    && mid.entries == (if IndexOfEntry(st.entries, k) < |st.entries| then st.entries else st.entries + [NewEntry(h, a)])
    && mid.artifacts == (if k in st.artifacts then st.artifacts else st.artifacts[k := a])
  }

  /** What an accepted preview established. */
  ghost predicate Previewed(st: State, s: Scope, a: Artifact) {
    && a.scope == s && (s.tenant, s.sourceId) in st.sources && a.source == st.sources[(s.tenant, s.sourceId)]
    && a.target == TargetOf(s, a.source) && a.source.job == s.job
    && (forall k :: k in st.artifacts ==> !BoundElsewhere(st.artifacts[k], a.source, s))
    && InvoiceFits(st, s, a.source)
  }

  lemma PreviewPreviews(st: State, ctx: Context, s: Scope, now: int)
    requires Wired(st) && Preview(st, ctx, s, now).Ok?
    ensures Previewed(st, s, Preview(st, ctx, s, now).value)
  {
  }

  ghost predicate Pushes(h: Digests, st: State, s: Scope, a: Artifact, mid: State, after: State) {
    && Wired(mid) && Previewed(st, s, a) && !Rebound(h, st, a) && !PostedElsewhere(st.entries, s)
    && Records(h, st, s, a, mid) && Delivered(mid, s, a.target, after)
  }

  lemma PushPushes(h: Digests, st: State, ctx: Context, c: Command, now: int) returns (a: Artifact, mid: State)
    requires Wired(st) && Push(h, st, ctx, c, now).0 != st
    ensures Pushes(h, st, c.scope, a, mid, Push(h, st, ctx, c, now).0)
  {
    a := Preview(st, ctx, c.scope, now).value;
    mid := Recorded(h, st, ctx, c, a);
    PreviewPreviews(st, ctx, c.scope, now);
    RecordedHasEntry(h, st, ctx, c, a);
    DeliverDelivers(h, mid, ctx, c.scope, a, now);
  }

  // ----- changing the route -----

  /** A confirmed change moves one key, after both routes showed every entry's own object. */
  ghost predicate Switches(h: Digests, st: State, s: Scope, r: Route, after: State)
    requires Wired(st)
  {
    && r in st.transports && st.transports[r].connection(s.tenant, s.company).Some?
    && SameWiring(st, after) && after.sources == st.sources
    && after.entries == st.entries && after.artifacts == st.artifacts && after.shelves == st.shelves
    && after.routes == st.routes[RouteKeyOf(s) := r]
    && (forall e :: e in st.entries && OnRoute(s)(e) ==>
          e.status == Pushed && ShownOnBoth(h, st, r, e, s))
  }

  lemma ConfirmRouteSwitches(h: Digests, st: State, ctx: Context, s: Scope, r: Route, d: Decision, now: int)
    requires Wired(st)
    ensures var after := ConfirmRoute(h, st, ctx, s, r, d, now);
            if after.1.None? then Switches(h, st, s, r, after.0) else after.0 == st
  {
    if PreviewRoute(h, st, ctx, s, r, now).Ok? {
      var entries := Filter(st.entries, OnRoute(s));
      assert forall e :: e in st.entries && OnRoute(s)(e) ==> e in entries;
    }
  }
}
