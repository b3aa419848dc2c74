/** What holds over every run of the accounting export protocol. */
module AccountingProofs {
  import opened Prelude
  import opened Accounting
  import opened AccountingSteps

  /** What one operation can do, whatever it was asked. */
  ghost predicate Stepped(h: Digests, st: State, op: Op, after: State)
    requires Wired(st)
  {
    match op
    case PushOp(_, c, _) => after == st || exists a, mid :: Pushes(h, st, c.scope, a, mid, after)
    case ReconcileOp(_, s, _) => after == st || Reconciled(h, st, s, after)
    case RouteOp(_, s, r, _, _) => after == st || Switches(h, st, s, r, after)
    case SourceOp(source) => after == st.(sources := st.sources[(source.tenant, source.id) := source])
    case OutsideOp(n, objects) => after == if n < |st.shelves| then st.(shelves := st.shelves[n := objects]) else st
    case _ => Idle(st, after)
  }

  lemma ConfirmIdles(h: Digests, st: State, ctx: Context, s: Scope, d: Decision, now: int)
    requires Wired(st)
    ensures Idle(st, ConfirmPreview(h, st, ctx, s, d, now).0)
  {
  }

  lemma RevokeIdles(h: Digests, st: State, ctx: Context, d: Decision)
    ensures Idle(st, RevokeConfirmation(h, st, ctx, d).0)
  {
  }

  lemma SetModeWiring(st: State, r: Route, mode: Mode)
    requires Wired(st) && r in st.transports
    ensures SameWiring(st, SetMode(st, r, mode))
  {
  }

  lemma SetModeIdles(st: State, r: Route, mode: Mode)
    requires Wired(st)
    ensures Idle(st, SetMode(st, r, mode))
  {
    if r in st.transports {
      SetModeWiring(st, r, mode);
    }
  }

  lemma IdleSteps(h: Digests, st: State, op: Op)
    requires Wired(st) && (op.ConfirmOp? || op.RevokeOp? || op.ConsentOp? || op.ModeOp?)
    ensures Idle(st, Step(h, st, op))
  {
    if op.ConfirmOp? {
      ConfirmIdles(h, st, op.ctx, op.scope, op.decision, op.now);
    } else if op.RevokeOp? {
      RevokeIdles(h, st, op.ctx, op.decision);
    } else if op.ModeOp? {
      SetModeIdles(st, op.route, op.mode);
    }
  }

  lemma StepSteps(h: Digests, st: State, op: Op)
    requires Wired(st)
    ensures Stepped(h, st, op, Step(h, st, op))
  {
    if op.PushOp? {
      if Push(h, st, op.ctx, op.command, op.now).0 != st {
        var a, mid := PushPushes(h, st, op.ctx, op.command, op.now);
      }
    } else if op.ReconcileOp? {
      ReconcileReconciles(h, st, op.ctx, op.scope, op.now);
    } else if op.RouteOp? {
      ConfirmRouteSwitches(h, st, op.ctx, op.scope, op.route, op.decision, op.now);
    } else if op.ConfirmOp? || op.RevokeOp? || op.ConsentOp? || op.ModeOp? {
      IdleSteps(h, st, op);
    }
  }

  predicate Inside(ops: seq<Op>) {
    forall op :: op in ops ==> !op.OutsideOp?
  }

  // ----- at most one object under a reference on a shelf -----

  function Copies(shelf: seq<External>, tenant: string, company: string, reference: string): nat {
    |Filter(shelf, Matching(tenant, company, reference))|
  }

  lemma CopiesAppend(shelf: seq<External>, o: External, tenant: string, company: string, reference: string)
    ensures Copies(shelf + [o], tenant, company, reference) ==
            Copies(shelf, tenant, company, reference) + if SameRef(o, tenant, company, reference) then 1 else 0
  {
    FilterAppend(shelf, [o], Matching(tenant, company, reference));
    assert [o][1..] == [];
  }

  /** Objects are only added, and never a second one under a reference. */
  ghost predicate GrowsOnce(st: State, after: State) {
    && |after.shelves| == |st.shelves|
    && forall n :: 0 <= n < |st.shelves| ==> GrowsOnceAt(st.shelves[n], after.shelves[n])
  }

  ghost predicate GrowsOnceAt(shelf: seq<External>, after: seq<External>) {
    && shelf <= after
    && forall t, c, r :: Copies(after, t, c, r) <= if Copies(shelf, t, c, r) == 0 then 1 else Copies(shelf, t, c, r)
  }

  lemma StoredGrowsOnce(st: State, s: Scope, e: Entry, target: Target, after: State)
    requires Wired(st) && Stored(st, s, e, target, after) && target.company == s.company
    requires after.shelves != st.shelves ==>
               Copies(st.shelves[ShelfOf(st, RouteKeyOf(s))], s.tenant, s.company, e.reference) == 0
    ensures GrowsOnce(st, after)
  {
    if after.shelves != st.shelves {
      var shelf := st.shelves[ShelfOf(st, RouteKeyOf(s))];
      var o := ObjectFor(shelf, e.reference, e.contentHash, target, s.tenant);
      forall t, c, r
        ensures Copies(shelf + [o], t, c, r) <= if Copies(shelf, t, c, r) == 0 then 1 else Copies(shelf, t, c, r)
      {
        CopiesAppend(shelf, o, t, c, r);
      }
      assert GrowsOnceAt(shelf, shelf + [o]);
    }
  }

  lemma DeliveredGrowsOnce(st: State, s: Scope, target: Target, after: State)
    requires Wired(st) && Delivered(st, s, target, after) && target.company == s.company
    ensures GrowsOnce(st, after)
  {
    StoredGrowsOnce(st, s, st.entries[IndexOfEntry(st.entries, ScopeEffect(s))], target, after);
  }

  lemma StepGrowsOnce(h: Digests, st: State, op: Op, after: State)
    requires Wired(st) && Wired(after) && Stepped(h, st, op, after) && !op.OutsideOp?
    ensures GrowsOnce(st, after)
  {
    if op.PushOp? && after != st {
      var a, mid :| Pushes(h, st, op.command.scope, a, mid, after);
      DeliveredGrowsOnce(mid, op.command.scope, a.target, after);
    }
  }

  /** At-most-once creation: every transport's objects only grow, by at most one object per reference. */
  lemma {:induction false} RunGrowsOnce(h: Digests, st: State, ops: seq<Op>)
    requires Wired(st) && Inside(ops)
    ensures GrowsOnce(st, Run(h, st, ops))
    decreases |ops|
  {
    if ops != [] {
      StepSteps(h, st, ops[0]);
      StepGrowsOnce(h, st, ops[0], Step(h, st, ops[0]));
      RunGrowsOnce(h, Step(h, st, ops[0]), ops[1..]);
      GrowsOnceTransitive(st, Step(h, st, ops[0]), Run(h, st, ops));
    }
  }

  lemma GrowsOnceTransitive(a: State, b: State, c: State)
    requires GrowsOnce(a, b) && GrowsOnce(b, c)
    ensures GrowsOnce(a, c)
  {
    forall n | 0 <= n < |a.shelves|
      ensures GrowsOnceAt(a.shelves[n], c.shelves[n])
    {
      assert GrowsOnceAt(a.shelves[n], b.shelves[n]) && GrowsOnceAt(b.shelves[n], c.shelves[n]);
    }
  }

  // ----- entries and artifacts are history -----

  /** How a whole run may change an entry. */
  predicate Later(e: Entry, f: Entry) {
    && SameRecord(e, f) && e.attempts <= f.attempts
    && (Tidy(e) ==> Tidy(f))
    && (Tidy(e) && e.externalId.Some? ==> f.externalId == e.externalId && f.attempts == e.attempts)
  }

  ghost predicate AllTidy(st: State) {
    forall e :: e in st.entries ==> Tidy(e)
  }

  ghost predicate History(st: State, after: State) {
    && |st.entries| <= |after.entries|
    && (forall i :: 0 <= i < |st.entries| ==> Later(st.entries[i], after.entries[i]))
    && (forall k :: k in st.artifacts ==> k in after.artifacts && after.artifacts[k] == st.artifacts[k])
  }

  lemma PushHistory(h: Digests, st: State, s: Scope, a: Artifact, mid: State, after: State)
    requires Pushes(h, st, s, a, mid, after)
    ensures History(st, after) && (AllTidy(st) ==> AllTidy(after))
  {
    var i := IndexOfEntry(mid.entries, ScopeEffect(s));
    forall j | 0 <= j < |st.entries|
      ensures Later(st.entries[j], after.entries[j])
    {
      assert mid.entries[j] == st.entries[j];
      assert j != i ==> after.entries[j] == mid.entries[j];
    }
    if AllTidy(st) {
      assert AllTidy(mid);
      assert Tidy(mid.entries[i]);
    }
  }

  lemma ReconcileHistory(h: Digests, st: State, s: Scope, after: State)
    requires Wired(st) && Reconciled(h, st, s, after)
    ensures History(st, after) && (AllTidy(st) ==> AllTidy(after))
  {
    var i := IndexOfEntry(st.entries, ScopeEffect(s));
    ClassifiedStep(h, st.entries[i], ArtifactAt(st, ScopeEffect(s)), Find(st, TransportOf(st, s), st.entries[i].reference, s));
    assert AllTidy(st) ==> Tidy(st.entries[i]);
  }

  lemma QuietHistory(st: State, after: State)
    requires after.entries == st.entries && after.artifacts == st.artifacts
    ensures History(st, after) && (AllTidy(st) ==> AllTidy(after))
  {
  }

  lemma StepHistory(h: Digests, st: State, op: Op, after: State)
    requires Wired(st) && Stepped(h, st, op, after)
    ensures History(st, after) && (AllTidy(st) ==> AllTidy(after))
  {
    if op.PushOp? && after != st {
      var a, mid :| Pushes(h, st, op.command.scope, a, mid, after);
      PushHistory(h, st, op.command.scope, a, mid, after);
    } else if op.ReconcileOp? && after != st {
      ReconcileHistory(h, st, op.scope, after);
    } else {
      QuietHistory(st, after);
    }
  }

  /** Whatever happens, outside changes included, an entry keeps its record and external id and is not sent again. */
  lemma {:induction false} RunHistory(h: Digests, st: State, ops: seq<Op>)
    requires Wired(st)
    ensures History(st, Run(h, st, ops)) && (AllTidy(st) ==> AllTidy(Run(h, st, ops)))
    decreases |ops|
  {
    if ops != [] {
      StepSteps(h, st, ops[0]);
      StepHistory(h, st, ops[0], Step(h, st, ops[0]));
      var next := Step(h, st, ops[0]);
      RunHistory(h, next, ops[1..]);
      forall i | 0 <= i < |st.entries|
        ensures Later(st.entries[i], Run(h, st, ops).entries[i])
      {
        assert Later(st.entries[i], next.entries[i]);
      }
    }
  }

  // ----- at most one object for an entry on all shelves together -----

  ghost predicate InjectiveDigests(h: Digests) {
    && (forall k: Effect, m: Effect :: h.effect(k) == h.effect(m) ==> k == m)
    && (forall s, x, t, s', x', t' :: h.binding(s, x, t) == h.binding(s', x', t') ==> s == s' && x == x' && t == t')
  }

  function CopiesOf(k: Effect, reference: string): seq<External> -> int {
    (shelf: seq<External>) => Copies(shelf, k.tenant, k.company, reference)
  }

  /** The objects of an effect on all shelves together. */
  function Created(h: Digests, st: State, k: Effect): int {
    SumBy(st.shelves, CopiesOf(k, h.effect(k)))
  }

  lemma {:induction false} CopiesWithin(shelves: seq<seq<External>>, n: nat, k: Effect, reference: string)
    requires n < |shelves|
    ensures 0 <= CopiesOf(k, reference)(shelves[n]) <= SumBy(shelves, CopiesOf(k, reference))
  {
    if n > 0 {
      CopiesWithin(shelves[1..], n - 1, k, reference);
    } else if |shelves| > 1 {
      CopiesWithin(shelves[1..], 0, k, reference);
    }
  }

  lemma {:induction false} CopiesUpdate(shelves: seq<seq<External>>, n: nat, shelf: seq<External>, k: Effect, reference: string)
    requires n < |shelves|
    ensures SumBy(shelves[n := shelf], CopiesOf(k, reference)) ==
            SumBy(shelves, CopiesOf(k, reference)) - CopiesOf(k, reference)(shelves[n]) + CopiesOf(k, reference)(shelf)
  {
    if n > 0 {
      assert shelves[n := shelf][1..] == shelves[1..][n - 1 := shelf];
      CopiesUpdate(shelves[1..], n - 1, shelf, k, reference);
    } else {
      assert shelves[n := shelf][1..] == shelves[1..];
    }
  }

  function KeyOfEntry(e: Entry): RouteKey {
    RouteKey(e.tenant, e.company, e.job)
  }

  /** An effect has an entry, an artifact and then at most one object, which its current route shows. */
  ghost predicate CreatedOnce(h: Digests, st: State, k: Effect)
    requires Wired(st)
  {
    var i := IndexOfEntry(st.entries, k);
    && (i < |st.entries| <==> k in st.artifacts)
    && 0 <= Created(h, st, k) <= 1
    && if i == |st.entries| then Created(h, st, k) == 0
       else
         && st.entries[i].reference == h.effect(k)
         && ScopeEffect(st.artifacts[k].scope) == k && st.artifacts[k].scope.job == st.entries[i].job
         && CopiesOf(k, h.effect(k))(st.shelves[ShelfOf(st, KeyOfEntry(st.entries[i]))]) == Created(h, st, k)
  }

  /** A delivery of one effect as it appears to another. */
  lemma StoredElsewhere(h: Digests, st: State, s: Scope, e: Entry, target: Target, after: State, k: Effect, n: nat)
    requires Wired(st) && Stored(st, s, e, target, after) && target.company == s.company && n < |st.shelves|
    requires !(k.tenant == s.tenant && k.company == s.company && h.effect(k) == e.reference)
    ensures |after.shelves| == |st.shelves| && Created(h, after, k) == Created(h, st, k)
    ensures CopiesOf(k, h.effect(k))(after.shelves[n]) == CopiesOf(k, h.effect(k))(st.shelves[n])
  {
    if after.shelves != st.shelves {
      var at := ShelfOf(st, RouteKeyOf(s));
      var o := ObjectFor(st.shelves[at], e.reference, e.contentHash, target, s.tenant);
      CopiesAppend(st.shelves[at], o, k.tenant, k.company, h.effect(k));
      CopiesUpdate(st.shelves, at, st.shelves[at] + [o], k, h.effect(k));
    }
  }

  /** A delivery of an effect with no object yet leaves at most the one on its route's shelf. */
  lemma StoredHere(h: Digests, st: State, s: Scope, e: Entry, target: Target, after: State)
    requires Wired(st) && Stored(st, s, e, target, after) && target.company == s.company && e.reference == h.effect(ScopeEffect(s))
    requires Created(h, st, ScopeEffect(s)) == 0
    ensures var n := ShelfOf(st, RouteKeyOf(s));
            && n < |after.shelves| && 0 <= Created(h, after, ScopeEffect(s)) <= 1
            && CopiesOf(ScopeEffect(s), e.reference)(after.shelves[n]) == Created(h, after, ScopeEffect(s))
  {
    var n := ShelfOf(st, RouteKeyOf(s));
    var k := ScopeEffect(s);
    CopiesWithin(st.shelves, n, k, e.reference);
    if after.shelves != st.shelves {
      var o := ObjectFor(st.shelves[n], e.reference, e.contentHash, target, s.tenant);
      CopiesAppend(st.shelves[n], o, s.tenant, s.company, e.reference);
      CopiesUpdate(st.shelves, n, st.shelves[n] + [o], k, e.reference);
    }
  }

  lemma {:induction false} IndexAppend(entries: seq<Entry>, e: Entry, k: Effect)
    ensures IndexOfEntry(entries + [e], k) ==
            if IndexOfEntry(entries, k) < |entries| then IndexOfEntry(entries, k)
            else if EffectOf(e) == k then |entries| else |entries| + 1
  {
    if entries == [] {
      assert entries + [e] == [e] && [e][1..] == [];
    } else {
      assert (entries + [e])[1..] == entries[1..] + [e];
      IndexAppend(entries[1..], e, k);
    }
  }

  lemma IndexUpdate(entries: seq<Entry>, i: nat, f: Entry, k: Effect)
    requires i < |entries| && EffectOf(f) == EffectOf(entries[i])
    ensures IndexOfEntry(entries[i := f], k) == IndexOfEntry(entries, k)
  {
    var m, j := IndexOfEntry(entries, k), IndexOfEntry(entries[i := f], k);
    assert forall n :: 0 <= n < |entries| ==> EffectOf(entries[i := f][n]) == EffectOf(entries[n]);
  }

  lemma RecordsCreatedOnce(h: Digests, st: State, s: Scope, a: Artifact, mid: State, k: Effect)
    requires Wired(st) && Wired(mid) && Records(h, st, s, a, mid) && a.scope == s && CreatedOnce(h, st, k)
    ensures CreatedOnce(h, mid, k)
  {
    IndexAppend(st.entries, NewEntry(h, a), k);
    IndexAppend(st.entries, NewEntry(h, a), ScopeEffect(s));
    var i := IndexOfEntry(mid.entries, k);
    if i < |mid.entries| {
      WiringCurrent(st, mid, KeyOfEntry(mid.entries[i]));
      CopiesWithin(mid.shelves, ShelfOf(mid, KeyOfEntry(mid.entries[i])), k, h.effect(k));
    }
  }

  /** The entry a push works on was recorded for the same job. */
  lemma SameJob(h: Digests, st: State, s: Scope, a: Artifact, mid: State)
    requires Wired(st) && InjectiveDigests(h) && CreatedOnce(h, st, ScopeEffect(s))
    requires Records(h, st, s, a, mid) && a.scope == s && !Rebound(h, st, a)
    ensures var i := IndexOfEntry(mid.entries, ScopeEffect(s)); i < |mid.entries| ==> KeyOfEntry(mid.entries[i]) == RouteKeyOf(s)
  {
    IndexAppend(st.entries, NewEntry(h, a), ScopeEffect(s));
  }

  lemma DeliveredCreatedOnce(h: Digests, st: State, s: Scope, target: Target, after: State, k: Effect)
    requires Wired(st) && Wired(after) && InjectiveDigests(h) && Delivered(st, s, target, after) && target.company == s.company
    requires CreatedOnce(h, st, k) && CreatedOnce(h, st, ScopeEffect(s))
    requires KeyOfEntry(st.entries[IndexOfEntry(st.entries, ScopeEffect(s))]) == RouteKeyOf(s)
    ensures CreatedOnce(h, after, k)
  {
    var i := IndexOfEntry(st.entries, ScopeEffect(s));
    var e := st.entries[i];
    IndexUpdate(st.entries, i, after.entries[i], k);
    var j := IndexOfEntry(st.entries, k);
    var n := if j < |st.entries| then ShelfOf(st, KeyOfEntry(st.entries[j])) else 0;
    if j < |st.entries| {
      WiringCurrent(st, after, KeyOfEntry(st.entries[j]));
    }
    if k != ScopeEffect(s) {
      assert h.effect(k) != e.reference;
      if |st.shelves| > 0 {
        StoredElsewhere(h, st, s, e, target, after, k, n);
      }
    } else if after.shelves != st.shelves {
      StoredHere(h, st, s, e, target, after);
    }
  }

  lemma SwitchCreatedOnce(h: Digests, st: State, s: Scope, r: Route, after: State, k: Effect)
    requires Wired(st) && Wired(after) && Switches(h, st, s, r, after) && CreatedOnce(h, st, k)
    ensures CreatedOnce(h, after, k)
  {
    var i := IndexOfEntry(st.entries, k);
    if i < |st.entries| {
      var e := st.entries[i];
      assert e in st.entries;
      CopiesWithin(st.shelves, ShelfOf(after, KeyOfEntry(e)), k, h.effect(k));
      if KeyOfEntry(e) == RouteKeyOf(s) {
        assert OnRoute(s)(e);
      }
    }
  }

  lemma ReconcileCreatedOnce(h: Digests, st: State, s: Scope, after: State, k: Effect)
    requires Wired(st) && Wired(after) && Reconciled(h, st, s, after) && CreatedOnce(h, st, k)
    ensures CreatedOnce(h, after, k)
  {
    var i := IndexOfEntry(st.entries, ScopeEffect(s));
    IndexUpdate(st.entries, i, after.entries[i], k);
    var j := IndexOfEntry(st.entries, k);
    if j < |st.entries| {
      WiringCurrent(st, after, KeyOfEntry(st.entries[j]));
    }
  }

  lemma IdleCreatedOnce(h: Digests, st: State, after: State, k: Effect)
    requires Wired(st) && Wired(after) && SameWiring(st, after) && after.routes == st.routes && CreatedOnce(h, st, k)
    requires after.entries == st.entries && after.artifacts == st.artifacts && after.shelves == st.shelves
    ensures CreatedOnce(h, after, k)
  {
    var i := IndexOfEntry(st.entries, k);
    if i < |st.entries| {
      WiringCurrent(st, after, KeyOfEntry(st.entries[i]));
    }
  }

  lemma PushCreatedOnce(h: Digests, st: State, s: Scope, a: Artifact, mid: State, after: State, k: Effect)
    requires Wired(st) && Wired(after) && InjectiveDigests(h) && Pushes(h, st, s, a, mid, after)
    requires CreatedOnce(h, st, k) && CreatedOnce(h, st, ScopeEffect(s))
    ensures CreatedOnce(h, after, k)
  {
    RecordsCreatedOnce(h, st, s, a, mid, k);
    RecordsCreatedOnce(h, st, s, a, mid, ScopeEffect(s));
    SameJob(h, st, s, a, mid);
    DeliveredCreatedOnce(h, mid, s, a.target, after, k);
  }

  lemma StepCreatedOnce(h: Digests, st: State, op: Op, after: State, k: Effect)
    requires Wired(st) && Wired(after) && Stepped(h, st, op, after) && InjectiveDigests(h) && !op.OutsideOp?
    requires forall m :: CreatedOnce(h, st, m)
    ensures CreatedOnce(h, after, k)
  {
    if after == st {
    } else if op.PushOp? {
      var a, mid :| Pushes(h, st, op.command.scope, a, mid, after);
      PushCreatedOnce(h, st, op.command.scope, a, mid, after, k);
    } else if op.ReconcileOp? {
      ReconcileCreatedOnce(h, st, op.scope, after, k);
    } else if op.RouteOp? {
      SwitchCreatedOnce(h, st, op.scope, op.route, after, k);
    } else {
      IdleCreatedOnce(h, st, after, k);
    }
  }

  /** Across lost answers, retries and route changes, an effect never has two objects on all shelves together. */
  lemma {:induction false} CreatedOnceAcrossRoutes(h: Digests, st: State, ops: seq<Op>)
    requires Wired(st) && InjectiveDigests(h) && Inside(ops)
    requires forall k :: CreatedOnce(h, st, k)
    ensures forall k :: CreatedOnce(h, Run(h, st, ops), k)
    decreases |ops|
  {
    if ops != [] {
      StepSteps(h, st, ops[0]);
      forall k
        ensures CreatedOnce(h, Step(h, st, ops[0]), k)
      {
        StepCreatedOnce(h, st, ops[0], Step(h, st, ops[0]), k);
      }
      CreatedOnceAcrossRoutes(h, Step(h, st, ops[0]), ops[1..]);
    }
  }

  lemma {:induction false} NoCopies(shelves: seq<seq<External>>, k: Effect, reference: string)
    requires forall n :: 0 <= n < |shelves| ==> shelves[n] == []
    ensures SumBy(shelves, CopiesOf(k, reference)) == 0
  {
    if shelves != [] {
      NoCopies(shelves[1..], k, reference);
    }
  }

  /** A new sandbox over empty shelves never holds two objects for one source, whatever route each was sent on. */
  lemma {:induction false} NeverTwoObjects(h: Digests, st: State, ops: seq<Op>, k: Effect)
    requires Wired(st) && InjectiveDigests(h) && Inside(ops)
    requires st.entries == [] && st.artifacts == map[] && forall n :: 0 <= n < |st.shelves| ==> st.shelves[n] == []
    ensures 0 <= Created(h, Run(h, st, ops), k) <= 1
    ensures Created(h, Run(h, st, ops), k) == 1 ==> k in Run(h, st, ops).artifacts
  {
    forall m
      ensures CreatedOnce(h, st, m)
    {
      NoCopies(st.shelves, m, h.effect(m));
    }
    CreatedOnceAcrossRoutes(h, st, ops);
    assert CreatedOnce(h, Run(h, st, ops), k);
  }

  // ----- what an invoice's adjustments reserve -----

  function PenceAgainst(tenant: string, invoice: string): Entry -> int {
    (e: Entry) => if e.tenant == tenant && e.invoiceId == Some(invoice) then e.pence else 0
  }

  /** What the entries against an invoice total. */
  function Reserved(st: State, tenant: string, invoice: string): int {
    SumBy(st.entries, PenceAgainst(tenant, invoice))
  }

  lemma {:induction false} SumAgainst(entries: seq<Entry>, tenant: string, invoice: string)
    ensures SumBy(Filter(entries, Against(tenant, Some(invoice))), EntryPence()) == SumBy(entries, PenceAgainst(tenant, invoice))
  {
    if entries != [] {
      SumAgainst(entries[1..], tenant, invoice);
    }
  }

  lemma {:induction false} SumSameRecord(entries: seq<Entry>, i: nat, f: Entry, tenant: string, invoice: string)
    requires i < |entries| && SameRecord(entries[i], f)
    ensures SumBy(entries[i := f], PenceAgainst(tenant, invoice)) == SumBy(entries, PenceAgainst(tenant, invoice))
  {
    if i > 0 {
      assert entries[i := f][1..] == entries[1..][i - 1 := f];
      SumSameRecord(entries[1..], i - 1, f, tenant, invoice);
    } else {
      assert entries[i := f][1..] == entries[1..] && entries[i := f][0] == f;
      assert f.tenant == EffectOf(f).tenant == EffectOf(entries[0]).tenant == entries[0].tenant;
    }
  }

  lemma {:induction false} IndexFinds(entries: seq<Entry>, e: Entry)
    requires e in entries
    ensures IndexOfEntry(entries, EffectOf(e)) < |entries|
  {
    var j :| 0 <= j < |entries| && entries[j] == e;
    assert EffectOf(entries[j]) == EffectOf(e);
  }

  lemma {:induction false} NotOwnKeeps(entries: seq<Entry>, company: string, sourceId: string)
    requires forall e :: e in entries ==> NotOwn(company, sourceId)(e)
    ensures Filter(entries, NotOwn(company, sourceId)) == entries
  {
    if entries != [] {
      assert entries[0] in entries && forall e :: e in entries[1..] ==> e in entries;
      NotOwnKeeps(entries[1..], company, sourceId);
    }
  }

  /** The invoice's amount and what is reserved against it stay within a cap. */
  ghost predicate Capped(st: State, tenant: string, invoice: string, cap: int) {
    && SourcesKeyed(st)
    && ((tenant, invoice) in st.sources ==> st.sources[(tenant, invoice)].pence <= cap)
    && Reserved(st, tenant, invoice) <= cap
  }

  lemma RecordsCapped(h: Digests, st: State, s: Scope, a: Artifact, mid: State, tenant: string, invoice: string, cap: int)
    requires Records(h, st, s, a, mid) && Previewed(st, s, a) && Capped(st, tenant, invoice, cap)
    ensures Capped(mid, tenant, invoice, cap)
  {
    var e := NewEntry(h, a);
    SumByAppend(st.entries, [e], PenceAgainst(tenant, invoice));
    assert [e][1..] == [];
    if mid.entries != st.entries && Against(tenant, Some(invoice))(e) {
      var against := Filter(st.entries, Against(s.tenant, Some(invoice)));
      forall o | o in against
        ensures NotOwn(s.company, a.source.id)(o)
      {
        IndexFinds(st.entries, o);
      }
      NotOwnKeeps(against, s.company, a.source.id);
      SumAgainst(st.entries, s.tenant, invoice);
    }
  }

  lemma PushCapped(h: Digests, st: State, s: Scope, a: Artifact, mid: State, after: State, tenant: string, invoice: string, cap: int)
    requires Pushes(h, st, s, a, mid, after) && Capped(st, tenant, invoice, cap)
    ensures Capped(after, tenant, invoice, cap)
  {
    RecordsCapped(h, st, s, a, mid, tenant, invoice, cap);
    var i := IndexOfEntry(mid.entries, ScopeEffect(s));
    SumSameRecord(mid.entries, i, after.entries[i], tenant, invoice);
  }

  lemma ReconcileCapped(h: Digests, st: State, s: Scope, after: State, tenant: string, invoice: string, cap: int)
    requires Wired(st) && Reconciled(h, st, s, after) && Capped(st, tenant, invoice, cap)
    ensures Capped(after, tenant, invoice, cap)
  {
    var i := IndexOfEntry(st.entries, ScopeEffect(s));
    SumSameRecord(st.entries, i, after.entries[i], tenant, invoice);
  }

  lemma QuietCapped(st: State, after: State, tenant: string, invoice: string, cap: int)
    requires after.entries == st.entries && Capped(st, tenant, invoice, cap)
    requires SourcesKeyed(after) && ((tenant, invoice) in after.sources ==> after.sources[(tenant, invoice)].pence <= cap)
    ensures Capped(after, tenant, invoice, cap)
  {
  }

  lemma StepCapped(h: Digests, st: State, op: Op, after: State, tenant: string, invoice: string, cap: int)
    requires Wired(st) && Wired(after) && Stepped(h, st, op, after) && Capped(st, tenant, invoice, cap)
    requires op.SourceOp? && op.source.tenant == tenant && op.source.id == invoice ==> op.source.pence <= cap
    ensures Capped(after, tenant, invoice, cap)
  {
    if after == st {
    } else if op.PushOp? {
      var a, mid :| Pushes(h, st, op.command.scope, a, mid, after);
      PushCapped(h, st, op.command.scope, a, mid, after, tenant, invoice, cap);
    } else if op.ReconcileOp? {
      ReconcileCapped(h, st, op.scope, after, tenant, invoice, cap);
    } else {
      QuietCapped(st, after, tenant, invoice, cap);
    }
  }

  /** Adjustments never reserve more than the largest amount their invoice has had, in any order and with any outcome. */
  lemma {:induction false} InvoiceNeverOverAllocated(h: Digests, st: State, ops: seq<Op>, tenant: string, invoice: string, cap: int)
    requires Wired(st) && Capped(st, tenant, invoice, cap)
    requires forall op :: op in ops && op.SourceOp? && op.source.tenant == tenant && op.source.id == invoice ==> op.source.pence <= cap
    ensures Capped(Run(h, st, ops), tenant, invoice, cap)
    decreases |ops|
  {
    if ops != [] {
      StepSteps(h, st, ops[0]);
      StepCapped(h, st, ops[0], Step(h, st, ops[0]), tenant, invoice, cap);
      InvoiceNeverOverAllocated(h, Step(h, st, ops[0]), ops[1..], tenant, invoice, cap);
    }
  }

  /** What is reserved against an invoice on file fits its current amount. */
  ghost predicate Fits(st: State, tenant: string, invoice: string) {
    SourcesKeyed(st) && (tenant, invoice) in st.sources && Reserved(st, tenant, invoice) <= st.sources[(tenant, invoice)].pence
  }

  /** A fixture change that takes the invoice's amount below what is already reserved. */
  predicate Undercuts(st: State, op: Op, tenant: string, invoice: string) {
    && op.SourceOp? && op.source.tenant == tenant && op.source.id == invoice
    && op.source.pence < Reserved(st, tenant, invoice)
  }

  lemma FitsStepped(h: Digests, st: State, op: Op, after: State, tenant: string, invoice: string)
    requires Wired(st) && Wired(after) && Stepped(h, st, op, after) && Fits(st, tenant, invoice)
    ensures Fits(after, tenant, invoice) <==> !Undercuts(st, op, tenant, invoice)
  {
    if !op.SourceOp? {
      StepCapped(h, st, op, after, tenant, invoice, st.sources[(tenant, invoice)].pence);
    }
  }

  /** After one operation the reserve still fits the current amount, unless the operation itself undercuts it. */
  lemma FitsExactly(h: Digests, st: State, op: Op, tenant: string, invoice: string)
    requires Wired(st) && Fits(st, tenant, invoice)
    ensures Fits(Step(h, st, op), tenant, invoice) <==> !Undercuts(st, op, tenant, invoice)
  {
    StepSteps(h, st, op);
    FitsStepped(h, st, op, Step(h, st, op), tenant, invoice);
  }

  /** The reserve fits in every state of the run. */
  ghost predicate AlwaysFits(h: Digests, st: State, ops: seq<Op>, tenant: string, invoice: string)
    requires Wired(st)
    decreases |ops|
  {
    Fits(st, tenant, invoice) && (ops != [] ==> AlwaysFits(h, Step(h, st, ops[0]), ops[1..], tenant, invoice))
  }

  ghost predicate NeverUndercuts(h: Digests, st: State, ops: seq<Op>, tenant: string, invoice: string)
    requires Wired(st)
    decreases |ops|
  {
    ops != [] ==> !Undercuts(st, ops[0], tenant, invoice) && NeverUndercuts(h, Step(h, st, ops[0]), ops[1..], tenant, invoice)
  }

  /** Over a run the reserve fits the invoice's current amount throughout exactly when no fixture change undercuts it. */
  lemma {:induction false} AlwaysFitsExactly(h: Digests, st: State, ops: seq<Op>, tenant: string, invoice: string)
    requires Wired(st) && Fits(st, tenant, invoice)
    ensures AlwaysFits(h, st, ops, tenant, invoice) <==> NeverUndercuts(h, st, ops, tenant, invoice)
    decreases |ops|
  {
    if ops != [] {
      FitsExactly(h, st, ops[0], tenant, invoice);
      if Fits(Step(h, st, ops[0]), tenant, invoice) {
        AlwaysFitsExactly(h, Step(h, st, ops[0]), ops[1..], tenant, invoice);
      }
    }
  }

  /** While an invoice's fixture is left alone its amount is the bound. */
  lemma {:induction false} UntouchedInvoiceFits(h: Digests, st: State, ops: seq<Op>, tenant: string, invoice: string)
    requires Wired(st) && Fits(st, tenant, invoice)
    requires forall op :: op in ops ==> !(op.SourceOp? && op.source.tenant == tenant && op.source.id == invoice)
    ensures AlwaysFits(h, st, ops, tenant, invoice)
    decreases |ops|
  {
    if ops != [] {
      assert ops[0] in ops && forall op :: op in ops[1..] ==> op in ops;
      FitsExactly(h, st, ops[0], tenant, invoice);
      UntouchedInvoiceFits(h, Step(h, st, ops[0]), ops[1..], tenant, invoice);
    }
  }

  /** Whenever anything is reserved there is a fixture change that the reserve does not fit. */
  lemma UndercutBreaks(h: Digests, st: State, tenant: string, invoice: string) returns (op: Op)
    requires Wired(st) && Fits(st, tenant, invoice) && Reserved(st, tenant, invoice) > 0
    ensures op == SourceOp(st.sources[(tenant, invoice)].(pence := Reserved(st, tenant, invoice) - 1))
    ensures !Fits(Step(h, st, op), tenant, invoice)
  {
    op := SourceOp(st.sources[(tenant, invoice)].(pence := Reserved(st, tenant, invoice) - 1));
    FitsExactly(h, st, op, tenant, invoice);
  }

  // ----- one company and customer per invoice family -----

  /** An artifact is filed under its own effect, with an entry beside it. */
  ghost predicate Filed(st: State, k: Effect)
    requires k in st.artifacts
  {
    && ScopeEffect(st.artifacts[k].scope) == k && st.artifacts[k].source.id == k.sourceId
    && IndexOfEntry(st.entries, k) < |st.entries|
  }

  /** Every artifact is filed, and the artifacts of a family have one company and customer. */
  ghost predicate FamiliesBound(st: State) {
    && SourcesKeyed(st)
    && (forall k :: k in st.artifacts ==> Filed(st, k))
    && (forall k, m :: k in st.artifacts && m in st.artifacts ==> OneFamily(st.artifacts[k], st.artifacts[m]))
  }

  predicate OneFamily(a: Artifact, b: Artifact) {
    a.scope.tenant == b.scope.tenant && FamilyOf(a.source) == FamilyOf(b.source) ==>
      a.scope.company == b.scope.company && a.scope.mapping.customer == b.scope.mapping.customer
  }

  /** An accepted artifact joins the family it finds. */
  lemma JoinsFamily(st: State, s: Scope, a: Artifact, k: Effect)
    requires FamiliesBound(st) && Previewed(st, s, a) && !PostedElsewhere(st.entries, s)
    requires k in st.artifacts && ScopeEffect(s) !in st.artifacts
    ensures OneFamily(a, st.artifacts[k]) && OneFamily(st.artifacts[k], a)
  {
    var b := st.artifacts[k];
    assert !BoundElsewhere(b, a.source, s);
    var e := st.entries[IndexOfEntry(st.entries, k)];
    assert e in st.entries && EffectOf(e) == k;
  }

  lemma PushFiles(h: Digests, st: State, s: Scope, a: Artifact, mid: State, after: State, k: Effect)
    requires a.scope == s && a.source.id == s.sourceId && Records(h, st, s, a, mid)
    requires Wired(mid) && Delivered(mid, s, a.target, after) && k in after.artifacts
    requires k in st.artifacts ==> Filed(st, k)
    ensures Filed(after, k)
  {
    IndexAppend(st.entries, NewEntry(h, a), k);
    var i := IndexOfEntry(mid.entries, ScopeEffect(s));
    IndexUpdate(mid.entries, i, after.entries[i], k);
  }

  lemma PushJoins(h: Digests, st: State, s: Scope, a: Artifact, mid: State, after: State, k: Effect, m: Effect)
    requires FamiliesBound(st) && Pushes(h, st, s, a, mid, after) && k in after.artifacts && m in after.artifacts
    ensures OneFamily(after.artifacts[k], after.artifacts[m])
  {
    if ScopeEffect(s) !in st.artifacts {
      if k in st.artifacts { JoinsFamily(st, s, a, k); }
      if m in st.artifacts { JoinsFamily(st, s, a, m); }
    }
  }

  lemma PushFamilies(h: Digests, st: State, s: Scope, a: Artifact, mid: State, after: State)
    requires FamiliesBound(st) && Pushes(h, st, s, a, mid, after)
    ensures FamiliesBound(after)
  {
    forall k | k in after.artifacts
      ensures Filed(after, k)
    {
      PushFiles(h, st, s, a, mid, after, k);
    }
    forall k, m | k in after.artifacts && m in after.artifacts
      ensures OneFamily(after.artifacts[k], after.artifacts[m])
    {
      PushJoins(h, st, s, a, mid, after, k, m);
    }
  }

  lemma FiledUpdate(st: State, after: State, i: nat, k: Effect)
    requires k in st.artifacts && Filed(st, k) && after.artifacts == st.artifacts
    requires i < |st.entries| == |after.entries| && after.entries == st.entries[i := after.entries[i]]
    requires EffectOf(after.entries[i]) == EffectOf(st.entries[i])
    ensures Filed(after, k)
  {
    IndexUpdate(st.entries, i, after.entries[i], k);
  }

  lemma ReconcileFamilies(h: Digests, st: State, s: Scope, after: State)
    requires Wired(st) && FamiliesBound(st) && Reconciled(h, st, s, after)
    ensures FamiliesBound(after)
  {
    forall k | k in after.artifacts
      ensures Filed(after, k)
    {
      assert Filed(st, k);
      FiledUpdate(st, after, IndexOfEntry(st.entries, ScopeEffect(s)), k);
    }
  }

  lemma QuietFamilies(st: State, after: State)
    requires FamiliesBound(st) && after.entries == st.entries && after.artifacts == st.artifacts && SourcesKeyed(after)
    ensures FamiliesBound(after)
  {
    forall k | k in after.artifacts
      ensures Filed(after, k)
    {
      assert Filed(st, k);
    }
  }

  lemma StepFamilies(h: Digests, st: State, op: Op, after: State)
    requires Wired(st) && Wired(after) && Stepped(h, st, op, after) && FamiliesBound(st)
    ensures FamiliesBound(after)
  {
    if after == st {
    } else if op.PushOp? {
      var a, mid :| Pushes(h, st, op.command.scope, a, mid, after);
      PushFamilies(h, st, op.command.scope, a, mid, after);
    } else if op.ReconcileOp? {
      ReconcileFamilies(h, st, op.scope, after);
    } else {
      QuietFamilies(st, after);
    }
  }

  /** All artifacts ever exported for one invoice family share one company and one customer. */
  lemma {:induction false} FamiliesStayBound(h: Digests, st: State, ops: seq<Op>)
    requires Wired(st) && FamiliesBound(st)
    ensures FamiliesBound(Run(h, st, ops))
    decreases |ops|
  {
    if ops != [] {
      StepSteps(h, st, ops[0]);
      StepFamilies(h, st, ops[0], Step(h, st, ops[0]));
      FamiliesStayBound(h, Step(h, st, ops[0]), ops[1..]);
    }
  }

  // ----- history across route changes -----

  /** An entry whose current route shows exactly its own object. */
  ghost predicate Anchored(h: Digests, st: State, i: nat, s: Scope)
    requires Wired(st)
  {
    && i < |st.entries| && OnRoute(s)(st.entries[i]) && st.entries[i].status == Pushed
    && ShowsExactly(h, st, TransportOf(st, s), st.entries[i], s)
    && TransportOf(st, s).connection(s.tenant, s.company).Some?
  }

  lemma AnchoredClassified(h: Digests, st: State, i: nat, s: Scope)
    requires Wired(st) && Anchored(h, st, i, s)
    ensures var e := st.entries[i];
            Classified(h, e, ArtifactAt(st, EffectOf(e)), Find(st, TransportOf(st, s), e.reference, s)) == e.(retryAt := None)
  {
  }

  /** A delivery for another entry does not touch an object that is already shown. */
  lemma StoredBeside(st: State, s: Scope, e: Entry, target: Target, after: State, n: nat, tenant: string, company: string, reference: string)
    requires Wired(st) && Stored(st, s, e, target, after) && target.company == s.company && n < |st.shelves|
    requires after.shelves != st.shelves ==> Filter(st.shelves[ShelfOf(st, RouteKeyOf(s))], Matching(s.tenant, s.company, e.reference)) == []
    requires Filter(st.shelves[n], Matching(tenant, company, reference)) != []
    ensures |after.shelves| == |st.shelves|
    ensures Filter(after.shelves[n], Matching(tenant, company, reference)) == Filter(st.shelves[n], Matching(tenant, company, reference))
  {
    var at := ShelfOf(st, RouteKeyOf(s));
    if after.shelves != st.shelves && n == at {
      var o := ObjectFor(st.shelves[at], e.reference, e.contentHash, target, s.tenant);
      FilterAppend(st.shelves[at], [o], Matching(tenant, company, reference));
      assert [o][1..] == [];
      assert !SameRef(o, tenant, company, reference);
      assert Filter([o], Matching(tenant, company, reference)) == [];
    }
  }

  lemma RecordsAnchored(h: Digests, st: State, s2: Scope, a: Artifact, mid: State, i: nat, s: Scope)
    requires Wired(st) && Wired(mid) && Records(h, st, s2, a, mid) && Anchored(h, st, i, s)
    ensures Anchored(h, mid, i, s) && mid.entries[i] == st.entries[i]
  {
    WiringCurrent(st, mid, RouteKeyOf(s));
    assert ArtifactAt(st, EffectOf(st.entries[i])) == ArtifactAt(mid, EffectOf(st.entries[i]));
  }

  lemma DeliveredAnchored(h: Digests, mid: State, s2: Scope, target: Target, after: State, i: nat, s: Scope)
    requires Wired(mid) && Wired(after) && Delivered(mid, s2, target, after) && target.company == s2.company && Anchored(h, mid, i, s)
    ensures Anchored(h, after, i, s) && after.entries[i] == mid.entries[i]
  {
    var e := mid.entries[i];
    var j := IndexOfEntry(mid.entries, ScopeEffect(s2));
    assert after.entries[i] == e;
    WiringCurrent(mid, after, RouteKeyOf(s));
    StoredBeside(mid, s2, mid.entries[j], target, after, ShelfOf(mid, RouteKeyOf(s)), s.tenant, s.company, e.reference);
  }

  lemma PushAnchored(h: Digests, st: State, s2: Scope, a: Artifact, mid: State, after: State, i: nat, s: Scope)
    requires Wired(st) && Wired(after) && Pushes(h, st, s2, a, mid, after) && Anchored(h, st, i, s)
    ensures Anchored(h, after, i, s) && after.entries[i] == st.entries[i]
  {
    RecordsAnchored(h, st, s2, a, mid, i, s);
    DeliveredAnchored(h, mid, s2, a.target, after, i, s);
  }

  lemma ReconcileAnchored(h: Digests, st: State, s2: Scope, after: State, i: nat, s: Scope)
    requires Wired(st) && Wired(after) && Reconciled(h, st, s2, after) && Anchored(h, st, i, s)
    ensures Anchored(h, after, i, s) && after.entries[i].externalId == st.entries[i].externalId
  {
    WiringCurrent(st, after, RouteKeyOf(s));
    if i == IndexOfEntry(st.entries, ScopeEffect(s2)) {
      assert RouteKeyOf(s2) == RouteKeyOf(s) && EffectOf(st.entries[i]) == ScopeEffect(s2);
      AnchoredClassified(h, st, i, s);
      assert after.entries[i] == st.entries[i].(retryAt := None);
    }
  }

  lemma SwitchAnchored(h: Digests, st: State, s2: Scope, r: Route, after: State, i: nat, s: Scope)
    requires Wired(st) && Wired(after) && Switches(h, st, s2, r, after) && Anchored(h, st, i, s)
    ensures Anchored(h, after, i, s) && after.entries[i] == st.entries[i]
  {
    assert st.entries[i] in st.entries;
    if RouteKeyOf(s2) == RouteKeyOf(s) {
      assert OnRoute(s2)(st.entries[i]);
    }
  }

  lemma StepAnchored(h: Digests, st: State, op: Op, after: State, i: nat, s: Scope)
    requires Wired(st) && Wired(after) && Stepped(h, st, op, after) && !op.OutsideOp? && Anchored(h, st, i, s)
    ensures Anchored(h, after, i, s) && after.entries[i].externalId == st.entries[i].externalId
  {
    if after == st {
    } else if op.PushOp? {
      var a, mid :| Pushes(h, st, op.command.scope, a, mid, after);
      PushAnchored(h, st, op.command.scope, a, mid, after, i, s);
    } else if op.ReconcileOp? {
      ReconcileAnchored(h, st, op.scope, after, i, s);
    } else if op.RouteOp? {
      SwitchAnchored(h, st, op.scope, op.route, after, i, s);
    } else {
      WiringCurrent(st, after, RouteKeyOf(s));
    }
  }

  lemma {:induction false} RunAnchored(h: Digests, st: State, ops: seq<Op>, i: nat, s: Scope)
    requires Wired(st) && Inside(ops) && Anchored(h, st, i, s)
    ensures Anchored(h, Run(h, st, ops), i, s) && Run(h, st, ops).entries[i].externalId == st.entries[i].externalId
    decreases |ops|
  {
    if ops != [] {
      StepSteps(h, st, ops[0]);
      StepAnchored(h, st, ops[0], Step(h, st, ops[0]), i, s);
      RunAnchored(h, Step(h, st, ops[0]), ops[1..], i, s);
    }
  }

  lemma SwitchAnchors(h: Digests, st: State, s: Scope, r: Route, after: State, i: nat)
    requires Wired(st) && Wired(after) && Switches(h, st, s, r, after) && i < |st.entries| && OnRoute(s)(st.entries[i])
    ensures Anchored(h, after, i, s) && after.entries == st.entries
  {
    assert st.entries[i] in st.entries;
  }

  /** Reconciling an anchored entry finds it pushed with the external id it had. */
  lemma AnchoredReconciles(h: Digests, st: State, i: nat, s: Scope, ctx: Context, now: int)
    requires Wired(st) && Anchored(h, st, i, s)
    requires i == IndexOfEntry(st.entries, ScopeEffect(s)) && st.entries[i].sourceRevision == s.sourceRevision
    requires Authorize(st, ctx, s, now).Ok?
    ensures Reconcile(h, st, ctx, s, now).1 == Ok(st.entries[i].(retryAt := None))
  {
    AnchoredClassified(h, st, i, s);
  }

  /** Safe route switching: after a confirmed change and any inside run, every entry of the job still reconciles to its object. */
  lemma {:induction false} SwitchKeepsHistory(h: Digests, st: State, ctx: Context, s: Scope, r: Route, d: Decision, now: int, ops: seq<Op>,
                           ctx': Context, s': Scope, now': int)
    requires Wired(st) && Inside(ops) && ConfirmRoute(h, st, ctx, s, r, d, now).1.None?
    requires IndexOfEntry(st.entries, ScopeEffect(s')) < |st.entries|
    requires var e := st.entries[IndexOfEntry(st.entries, ScopeEffect(s'))];
             OnRoute(s)(e) && e.job == s'.job && e.sourceRevision == s'.sourceRevision
    ensures var last := Run(h, ConfirmRoute(h, st, ctx, s, r, d, now).0, ops);
            var i := IndexOfEntry(st.entries, ScopeEffect(s'));
            Authorize(last, ctx', s', now').Ok? ==>
              var got := Reconcile(h, last, ctx', s', now').1;
              && got.Ok? && got.value.status == Pushed && got.value.externalId == st.entries[i].externalId
              && SameRecord(st.entries[i], got.value)
  {
    var switched := ConfirmRoute(h, st, ctx, s, r, d, now).0;
    var last := Run(h, switched, ops);
    var i := IndexOfEntry(st.entries, ScopeEffect(s'));
    ConfirmRouteSwitches(h, st, ctx, s, r, d, now);
    SwitchAnchors(h, st, s, r, switched, i);
    AnchoredScope(h, switched, i, s, s');
    RunAnchored(h, switched, ops, i, s');
    RunHistory(h, switched, ops);
    assert Later(st.entries[i], last.entries[i]);
    HistoryIndex(switched, last, ScopeEffect(s'));
    if Authorize(last, ctx', s', now').Ok? {
      AnchoredReconciles(h, last, i, s', ctx', now');
    }
  }

  lemma AnchoredScope(h: Digests, st: State, i: nat, s: Scope, s': Scope)
    requires Wired(st) && Anchored(h, st, i, s) && RouteKeyOf(s') == RouteKeyOf(s)
    ensures Anchored(h, st, i, s')
  {
  }

  lemma {:induction false} HistoryIndex(st: State, after: State, k: Effect)
    requires History(st, after) && IndexOfEntry(st.entries, k) < |st.entries|
    ensures IndexOfEntry(after.entries, k) == IndexOfEntry(st.entries, k)
  {
    var i, j := IndexOfEntry(st.entries, k), IndexOfEntry(after.entries, k);
    assert forall n :: 0 <= n < |st.entries| ==> Later(st.entries[n], after.entries[n]);
  }

  // ----- what a lost answer leaves -----

  /** After an unknown outcome a push is refused until a reconciliation has looked. */
  lemma UnknownNeedsReconciliation(h: Digests, st: State, ctx: Context, c: Command, now: int)
    requires Wired(st) && IndexOfEntry(st.entries, ScopeEffect(c.scope)) < |st.entries|
    requires var e := st.entries[IndexOfEntry(st.entries, ScopeEffect(c.scope))]; !MaySend(e.status) && e.status != Pushed
    ensures Push(h, st, ctx, c, now).1.Err?
    ensures Push(h, st, ctx, c, now).0.shelves == st.shelves && Push(h, st, ctx, c, now).0.entries == st.entries
  {
    if Preview(st, ctx, c.scope, now).Ok? && PushRefusal(h, st, ctx, c, Preview(st, ctx, c.scope, now).value, now).None? {
      var a := Preview(st, ctx, c.scope, now).value;
      var mid := Recorded(h, st, ctx, c, a);
      RecordedHasEntry(h, st, ctx, c, a);
      DeliverAttempts(h, mid, ctx, c.scope, a, now);
      StuckRefused(h, mid, ctx, c.scope, a, now);
    }
  }

  lemma StuckRefused(h: Digests, st: State, ctx: Context, s: Scope, a: Artifact, now: int)
    requires Wired(st) && IndexOfEntry(st.entries, ScopeEffect(s)) < |st.entries|
    requires var e := st.entries[IndexOfEntry(st.entries, ScopeEffect(s))]; !MaySend(e.status) && e.status != Pushed
    ensures Deliver(h, st, ctx, s, a, now).1 == Err(ReconcileRequired)
  {
  }
}
