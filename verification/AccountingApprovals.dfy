/**
 * What a push and a route change need and what they do, said of whole runs and without the functions
 * that decide it.
 */
module AccountingApprovals {
  import opened Prelude
  import Decimals
  import opened Accounting
  import opened AccountingSteps
  import opened AccountingProofs

  // ----- what a push needs -----

  /** The caller may export, for a company with a current consent. */
  predicate Authorised(st: State, ctx: Context, s: Scope, now: int) {
    && st.enabled && -9_007_199_254_740_991 <= now <= 9_007_199_254_740_991
    && ctx.canExport && ctx.tenant == s.tenant && DemoId(ctx.actor)
    && (s.tenant, s.company) in st.consents
    && !st.consents[(s.tenant, s.company)].revoked && now < st.consents[(s.tenant, s.company)].expiresAt
  }

  predicate Unlocked(source: Source) {
    source.finalAccount.None? || source.finalAccount.value.revision == source.finalAccount.value.lockedRevision
  }

  /** The source is the scope's, current, and linked to an invoice exactly if it is not one. */
  predicate SourceReady(s: Scope, source: Source) {
    && source.job == s.job && source.revision == s.sourceRevision && Unlocked(source)
    && match source.kind
       case CustomerInvoice => source.state == Issued && source.invoiceId.None? && source.invoiceRevision.None?
       case Credit => source.state == Posted && source.invoiceId.Some? && source.invoiceRevision.Some?
       case Receipt => source.state == Posted && source.invoiceId.Some? && source.invoiceRevision.Some?
  }

  /** What the entries of other sources hold against an invoice. */
  function Held(s: Scope, source: Source): Entry -> int {
    (e: Entry) =>
      if e.tenant == s.tenant && e.invoiceId == source.invoiceId && !(e.company == s.company && e.sourceId == source.id) then e.pence else 0
  }

  /** A linked source names an issued invoice of its job at its revision, and fits what others leave of it. */
  predicate InvoiceReady(st: State, s: Scope, source: Source) {
    source.invoiceId.Some? ==>
      && (s.tenant, source.invoiceId.value) in st.sources
      && var invoice := st.sources[(s.tenant, source.invoiceId.value)];
         && invoice.kind == CustomerInvoice && invoice.state == Issued && invoice.job == s.job
         && source.invoiceRevision == Some(invoice.revision) && Unlocked(invoice)
         && source.pence <= invoice.pence && SumBy(st.entries, Held(s, source)) + source.pence <= invoice.pence
  }

  function InvoiceOf(source: Source): string {
    if source.invoiceId.Some? then source.invoiceId.value else source.id
  }

  /** No artifact of the tenant's same invoice has another company or customer. */
  ghost predicate FamilyReady(st: State, s: Scope, source: Source) {
    forall k :: k in st.artifacts && (source.invoiceId.Some? || st.artifacts[k].source.invoiceId.Some?)
                && st.artifacts[k].scope.tenant == s.tenant && InvoiceOf(st.artifacts[k].source) == InvoiceOf(source) ==>
      st.artifacts[k].scope.company == s.company && st.artifacts[k].scope.mapping.customer == s.mapping.customer
  }

  /** The artifact's target carries the source and the mapping field by field. */
  predicate Carries(t: Target, s: Scope, source: Source) {
    && t.company == s.company && t.account == s.mapping.account && t.customer == s.mapping.customer
    && t.sourceId == source.id && t.sourceRevision == source.revision && t.pence == source.pence && t.tax == source.tax
    && t.invoiceId == source.invoiceId && t.invoiceRevision == source.invoiceRevision
    && match source.kind
       case CustomerInvoice => t.objectType == Invoice
       case Credit => t.objectType == CreditNote
       case Receipt => t.objectType == Payment
  }

  /** Everything a preview needs, and the artifact it shows. */
  ghost predicate Previewable(st: State, ctx: Context, s: Scope, now: int, a: Artifact)
    requires Wired(st)
  {
    && Authorised(st, ctx, s, now) && s.mapping.tenant == s.tenant && s.mapping.company == s.company
    && (s.tenant, s.sourceId) in st.sources
    && var source := st.sources[(s.tenant, s.sourceId)];
       && SourceReady(s, source) && FamilyReady(st, s, source) && InvoiceReady(st, s, source)
       && source.tax == s.mapping.tax
       && var route := if RouteKey(s.tenant, s.company, s.job) in st.routes then st.routes[RouteKey(s.tenant, s.company, s.job)] else st.defaultRoute;
          && (route != Codat ==> source.tax != Unsupported)
          && st.transports[route].connection(s.tenant, s.company) == Some(a.connectionRevision)
          && a.route == route && a.scope == s && a.source == source && Carries(a.target, s, source)
          && a.consentRevision == st.consents[(s.tenant, s.company)].revision
  }

  lemma {:induction false} HeldSum(entries: seq<Entry>, s: Scope, source: Source)
    ensures ReservedByOthers(entries, s, source) == SumBy(entries, Held(s, source))
  {
    if entries != [] {
      HeldSum(entries[1..], s, source);
    }
  }

  lemma AuthorisedExactly(st: State, ctx: Context, s: Scope, now: int)
    ensures Authorize(st, ctx, s, now).Ok? <==> Authorised(st, ctx, s, now)
    ensures Authorised(st, ctx, s, now) ==> Authorize(st, ctx, s, now).value == st.consents[(s.tenant, s.company)]
  {
  }

  lemma DraftedExactly(st: State, s: Scope, route: Route, connection: nat, consentRevision: int)
    ensures Drafted(st, s, route, connection, consentRevision).Ok? <==>
              && (s.tenant, s.sourceId) in st.sources
              && var source := st.sources[(s.tenant, s.sourceId)];
                 && SourceReady(s, source) && FamilyReady(st, s, source) && InvoiceReady(st, s, source)
                 && source.tax == s.mapping.tax && (route != Codat ==> source.tax != Unsupported)
    ensures Drafted(st, s, route, connection, consentRevision).Ok? ==>
              var a, source := Drafted(st, s, route, connection, consentRevision).value, st.sources[(s.tenant, s.sourceId)];
              a.route == route && a.connectionRevision == connection && a.scope == s && a.source == source
              && a.consentRevision == consentRevision && Carries(a.target, s, source)
  {
    if (s.tenant, s.sourceId) in st.sources {
      HeldSum(st.entries, s, st.sources[(s.tenant, s.sourceId)]);
    }
  }

  lemma CarriesOnce(t: Target, u: Target, s: Scope, source: Source)
    requires Carries(t, s, source) && Carries(u, s, source)
    ensures t == u
  {
  }

  /** A preview shows an artifact exactly if everything it needs is there, and then that artifact. */
  lemma PreviewExactly(st: State, ctx: Context, s: Scope, now: int, a: Artifact)
    requires Wired(st)
    ensures Preview(st, ctx, s, now) == Ok(a) <==> Previewable(st, ctx, s, now, a)
  {
    AuthorisedExactly(st, ctx, s, now);
    if Authorised(st, ctx, s, now) && TransportOf(st, s).connection(s.tenant, s.company).Some? {
      var route, connection := CurrentRoute(st, RouteKeyOf(s)), TransportOf(st, s).connection(s.tenant, s.company).value;
      var revision := st.consents[(s.tenant, s.company)].revision;
      DraftedExactly(st, s, route, connection, revision);
      if Previewable(st, ctx, s, now, a) {
        CarriesOnce(a.target, Drafted(st, s, route, connection, revision).value.target, s, a.source);
      }
    }
  }

  /** A decision is the caller's own, for this action and digest, and still valid. */
  predicate DecidedBy(ctx: Context, d: Decision, action: Action, digest: string, now: int) {
    d.tenant == ctx.tenant && d.actor == ctx.actor && d.action == action && d.previewHash == digest && now < d.expiresAt
  }

  predicate OnRecord(h: Digests, st: State, tenant: string, d: Decision) {
    (tenant, d.id) in st.decisions && st.decisions[(tenant, d.id)] == Confirmed(h.decision(d))
  }

  /** Everything a push of this artifact needs. */
  ghost predicate MayPush(h: Digests, st: State, ctx: Context, c: Command, now: int, a: Artifact)
    requires Wired(st)
  {
    && Previewable(st, ctx, c.scope, now, a)
    && DecidedBy(ctx, c.decision, PushAction, h.artifact(a), now) && OnRecord(h, st, ctx.tenant, c.decision)
    && (CommandKey(ctx.tenant, c.id) in st.commands ==> st.commands[CommandKey(ctx.tenant, c.id)].fingerprint == h.command(c))
    && (IdempotencyKey(ctx.tenant, c.idempotencyKey) in st.commands ==>
          st.commands[IdempotencyKey(ctx.tenant, c.idempotencyKey)].fingerprint == h.command(c))
    && (forall e :: e in st.entries && e.tenant == c.scope.tenant && e.sourceId == c.scope.sourceId ==> e.company == c.scope.company)
    && var k := Effect(c.scope.tenant, c.scope.company, c.scope.sourceId);
       (k in st.artifacts ==>
          h.binding(st.artifacts[k].scope, st.artifacts[k].source, st.artifacts[k].target) == h.binding(a.scope, a.source, a.target))
  }

  lemma PushRefusalExactly(h: Digests, st: State, ctx: Context, c: Command, now: int, a: Artifact)
    requires Wired(st) && Previewable(st, ctx, c.scope, now, a)
    ensures PushRefusal(h, st, ctx, c, a, now).None? <==> MayPush(h, st, ctx, c, now, a)
  {
  }

  lemma Unpreviewed(h: Digests, st: State, ctx: Context, c: Command, now: int)
    requires Wired(st) && Preview(st, ctx, c.scope, now).Err?
    ensures Push(h, st, ctx, c, now).0 == st && Push(h, st, ctx, c, now).1.Err?
  {
  }

  lemma RefusedPush(h: Digests, st: State, ctx: Context, c: Command, now: int, a: Artifact)
    requires Wired(st) && Preview(st, ctx, c.scope, now) == Ok(a) && PushRefusal(h, st, ctx, c, a, now).Some?
    ensures Push(h, st, ctx, c, now).0 == st && Push(h, st, ctx, c, now).1.Err?
  {
  }

  /** What an admitted push goes on to: its records, and then the delivery. */
  lemma AdmittedPush(h: Digests, st: State, ctx: Context, c: Command, now: int, a: Artifact) returns (mid: State)
    requires Wired(st) && Preview(st, ctx, c.scope, now) == Ok(a) && PushRefusal(h, st, ctx, c, a, now).None?
    ensures Wired(mid) && mid == Recorded(h, st, ctx, c, a) && IndexOfEntry(mid.entries, ScopeEffect(c.scope)) < |mid.entries|
    ensures Push(h, st, ctx, c, now) == Deliver(h, mid, ctx, c.scope, a, now)
  {
    mid := Recorded(h, st, ctx, c, a);
    PreviewExactly(st, ctx, c.scope, now, a);
    RecordedHasEntry(h, st, ctx, c, a);
  }

  /** A push that may not be made is refused and changes nothing. */
  lemma PushNeedsAll(h: Digests, st: State, ctx: Context, c: Command, now: int)
    requires Wired(st) && forall a :: !MayPush(h, st, ctx, c, now, a)
    ensures Push(h, st, ctx, c, now).0 == st && Push(h, st, ctx, c, now).1.Err?
  {
    var preview := Preview(st, ctx, c.scope, now);
    if preview.Ok? {
      PreviewExactly(st, ctx, c.scope, now, preview.value);
      PushRefusalExactly(h, st, ctx, c, now, preview.value);
      assert !MayPush(h, st, ctx, c, now, preview.value);
      RefusedPush(h, st, ctx, c, now, preview.value);
    } else {
      Unpreviewed(h, st, ctx, c, now);
    }
  }

  // ----- confirmations over a run -----

  /** The operation is answered with a confirmation of the decision of that digest. */
  ghost predicate Confirming(h: Digests, st: State, op: Op, k: (string, string), digest: string)
    requires Wired(st)
  {
    || (op.ConfirmOp? && (op.ctx.tenant, op.decision.id) == k && h.decision(op.decision) == digest
        && ConfirmPreview(h, st, op.ctx, op.scope, op.decision, op.now).1.Ok?)
    || (op.RouteOp? && (op.ctx.tenant, op.decision.id) == k && h.decision(op.decision) == digest
        && ConfirmRoute(h, st, op.ctx, op.scope, op.route, op.decision, op.now).1.None?)
  }

  /** The operation is answered with a revocation of that decision. */
  ghost predicate Revoking(h: Digests, st: State, op: Op, k: (string, string)) {
    op.RevokeOp? && (op.ctx.tenant, op.decision.id) == k && RevokeConfirmation(h, st, op.ctx, op.decision).1.None?
  }

  lemma ReconcileDecisions(h: Digests, st: State, ctx: Context, s: Scope, now: int)
    requires Wired(st)
    ensures Reconcile(h, st, ctx, s, now).0.decisions == st.decisions
  {
  }

  lemma CreateDecisions(h: Digests, st: State, ctx: Context, s: Scope, i: nat, target: Target, now: int)
    requires Wired(st) && i < |st.entries|
    ensures Create(h, st, ctx, s, i, target, now).0.decisions == st.decisions
  {
  }

  lemma AttemptDecisions(h: Digests, st: State, ctx: Context, s: Scope, i: nat, target: Target, now: int)
    requires Wired(st) && i < |st.entries|
    ensures Attempt(h, st, ctx, s, i, target, now).0.decisions == st.decisions
  {
    ReconcileDecisions(h, st, ctx, s, now);
    CreateDecisions(h, st, ctx, s, i, target, now);
  }

  lemma DeliverDecisions(h: Digests, st: State, ctx: Context, s: Scope, a: Artifact, now: int)
    requires Wired(st) && IndexOfEntry(st.entries, ScopeEffect(s)) < |st.entries|
    ensures Deliver(h, st, ctx, s, a, now).0.decisions == st.decisions
  {
    var i := IndexOfEntry(st.entries, ScopeEffect(s));
    DeliverAttempts(h, st, ctx, s, a, now);
    AttemptDecisions(h, st, ctx, s, i, a.target, now);
    AttemptDecisions(h, WithEntry(st, i, Readied(st.entries[i])), ctx, s, i, a.target, now);
  }

  lemma PushDecisions(h: Digests, st: State, ctx: Context, c: Command, now: int)
    requires Wired(st)
    ensures Push(h, st, ctx, c, now).0.decisions == st.decisions
  {
    var preview := Preview(st, ctx, c.scope, now);
    if preview.Err? {
      Unpreviewed(h, st, ctx, c, now);
    } else if PushRefusal(h, st, ctx, c, preview.value, now).Some? {
      RefusedPush(h, st, ctx, c, now, preview.value);
    } else {
      var mid := AdmittedPush(h, st, ctx, c, now, preview.value);
      DeliverDecisions(h, mid, ctx, c.scope, preview.value, now);
    }
  }

  /** How one operation changes what is on record of one decision. */
  ghost predicate DecisionStep(h: Digests, st: State, op: Op, after: State, k: (string, string), digest: string)
    requires Wired(st)
  {
    && ((k in after.decisions && after.decisions[k] == Confirmed(digest)) <==>
          Confirming(h, st, op, k, digest) || (k in st.decisions && st.decisions[k] == Confirmed(digest) && !Revoking(h, st, op, k)))
    && (k in st.decisions && st.decisions[k] == Revoked ==> k in after.decisions && after.decisions[k] == Revoked)
    && (Revoking(h, st, op, k) ==> k in after.decisions && after.decisions[k] == Revoked)
    && (k in st.decisions ==> k in after.decisions)
  }

  lemma ConfirmDecision(h: Digests, st: State, op: Op, k: (string, string), digest: string)
    requires Wired(st) && op.ConfirmOp?
    ensures DecisionStep(h, st, op, ConfirmPreview(h, st, op.ctx, op.scope, op.decision, op.now).0, k, digest)
  {
  }

  lemma RevokeDecision(h: Digests, st: State, op: Op, k: (string, string), digest: string)
    requires Wired(st) && op.RevokeOp?
    ensures DecisionStep(h, st, op, RevokeConfirmation(h, st, op.ctx, op.decision).0, k, digest)
  {
  }

  lemma RouteDecision(h: Digests, st: State, op: Op, k: (string, string), digest: string)
    requires Wired(st) && op.RouteOp?
    ensures DecisionStep(h, st, op, ConfirmRoute(h, st, op.ctx, op.scope, op.route, op.decision, op.now).0, k, digest)
  {
  }

  lemma OtherDecision(h: Digests, st: State, op: Op, after: State, k: (string, string), digest: string)
    requires Wired(st) && !op.ConfirmOp? && !op.RevokeOp? && !op.RouteOp? && after.decisions == st.decisions
    ensures DecisionStep(h, st, op, after, k, digest)
  {
  }

  lemma StepDecision(h: Digests, st: State, op: Op, k: (string, string), digest: string)
    requires Wired(st)
    ensures DecisionStep(h, st, op, Step(h, st, op), k, digest)
  {
    if op.ConfirmOp? {
      ConfirmDecision(h, st, op, k, digest);
    } else if op.RevokeOp? {
      RevokeDecision(h, st, op, k, digest);
    } else if op.RouteOp? {
      RouteDecision(h, st, op, k, digest);
    } else {
      if op.PushOp? { PushDecisions(h, st, op.ctx, op.command, op.now); }
      OtherDecision(h, st, op, Step(h, st, op), k, digest);
    }
  }

  lemma {:induction false} RunLast(h: Digests, st: State, ops: seq<Op>)
    requires Wired(st) && ops != []
    ensures Run(h, st, ops) == Step(h, Run(h, st, ops[..|ops| - 1]), ops[|ops| - 1])
    decreases |ops|
  {
    if |ops| == 1 {
      assert ops[..0] == [] && ops[1..] == [];
    } else {
      RunLast(h, Step(h, st, ops[0]), ops[1..]);
      assert ops[1..][..|ops| - 2] == ops[..|ops| - 1][1..];
    }
  }

  /** Confirmed at some position, or at the start, and not revoked afterwards, up to position n. */
  ghost predicate Stands(n: nat, start: bool, confirmed: nat -> bool, revoked: nat -> bool) {
    || (exists m :: 0 <= m < n && confirmed(m) && forall j :: m < j < n ==> !revoked(j))
    || (start && forall j :: 0 <= j < n ==> !revoked(j))
  }

  lemma StandsNext(n: nat, start: bool, confirmed: nat -> bool, revoked: nat -> bool)
    ensures Stands(n + 1, start, confirmed, revoked) <==> confirmed(n) || (Stands(n, start, confirmed, revoked) && !revoked(n))
  {
  }

  /** Where in the run a decision of that digest is confirmed. */
  ghost function Confirmations(h: Digests, st: State, ops: seq<Op>, k: (string, string), digest: string): nat -> bool {
    (m: nat) => Wired(st) && m < |ops| && Confirming(h, Run(h, st, ops[..m]), ops[m], k, digest)
  }

  /** Where in the run it is revoked. */
  ghost function Revocations(h: Digests, st: State, ops: seq<Op>, k: (string, string)): nat -> bool {
    (m: nat) => Wired(st) && m < |ops| && Revoking(h, Run(h, st, ops[..m]), ops[m], k)
  }

  predicate RecordedAs(st: State, k: (string, string), mark: DecisionMark) {
    k in st.decisions && st.decisions[k] == mark
  }

  /** After n operations the decision's confirmation, in the run or before it, is not revoked. */
  ghost predicate Standing(h: Digests, st: State, ops: seq<Op>, n: nat, k: (string, string), digest: string) {
    Stands(n, RecordedAs(st, k, Confirmed(digest)), Confirmations(h, st, ops, k, digest), Revocations(h, st, ops, k))
  }

  lemma {:induction false} StepRecords(h: Digests, st: State, ops: seq<Op>, n: nat, k: (string, string), digest: string)
    requires Wired(st) && n < |ops|
    ensures RecordedAs(Run(h, st, ops[..n + 1]), k, Confirmed(digest)) <==>
              Confirmations(h, st, ops, k, digest)(n)
              || (RecordedAs(Run(h, st, ops[..n]), k, Confirmed(digest)) && !Revocations(h, st, ops, k)(n))
    ensures RecordedAs(Run(h, st, ops[..n]), k, Revoked) || Revocations(h, st, ops, k)(n) ==> RecordedAs(Run(h, st, ops[..n + 1]), k, Revoked)
    ensures k in Run(h, st, ops[..n]).decisions ==> k in Run(h, st, ops[..n + 1]).decisions
  {
    assert ops[..n + 1][..n] == ops[..n];
    RunLast(h, st, ops[..n + 1]);
    StepDecision(h, Run(h, st, ops[..n]), ops[n], k, digest);
  }

  lemma {:induction false} StandsAlways(p: nat -> bool, confirmed: nat -> bool, revoked: nat -> bool, n: nat)
    requires forall j: nat :: j < n ==> (p(j + 1) <==> confirmed(j) || (p(j) && !revoked(j)))
    ensures p(n) <==> Stands(n, p(0), confirmed, revoked)
    decreases n
  {
    if n > 0 {
      StandsAlways(p, confirmed, revoked, n - 1);
      StandsNext(n - 1, p(0), confirmed, revoked);
      assert p(n - 1 + 1) <==> confirmed(n - 1) || (p(n - 1) && !revoked(n - 1));
    }
  }

  ghost function ConfirmedIn(h: Digests, st: State, ops: seq<Op>, k: (string, string), digest: string): nat -> bool {
    (n: nat) => Wired(st) && n <= |ops| && RecordedAs(Run(h, st, ops[..n]), k, Confirmed(digest))
  }

  lemma ConfirmedNext(p: nat -> bool, c: nat -> bool, v: nat -> bool, h: Digests, st: State, ops: seq<Op>, n: nat, k: (string, string), digest: string)
    requires p == ConfirmedIn(h, st, ops, k, digest) && c == Confirmations(h, st, ops, k, digest) && v == Revocations(h, st, ops, k)
    requires Wired(st) && n < |ops|
    ensures p(n + 1) <==> c(n) || (p(n) && !v(n))
  {
    StepRecords(h, st, ops, n, k, digest);
  }

  lemma ConfirmedAlong(p: nat -> bool, c: nat -> bool, v: nat -> bool, h: Digests, st: State, ops: seq<Op>, n: nat, k: (string, string), digest: string)
    requires p == ConfirmedIn(h, st, ops, k, digest) && c == Confirmations(h, st, ops, k, digest) && v == Revocations(h, st, ops, k)
    requires Wired(st) && n <= |ops|
    ensures p(n) <==> Stands(n, p(0), c, v)
  {
    forall j: nat | j < n
      ensures p(j + 1) <==> c(j) || (p(j) && !v(j))
    {
      ConfirmedNext(p, c, v, h, st, ops, j, k, digest);
    }
    StandsAlways(p, c, v, n);
  }

  /** What is on record of a decision during a run is exactly whether its confirmation stands. */
  lemma {:induction false} RecordMeans(h: Digests, st: State, ops: seq<Op>, n: nat, k: (string, string), digest: string)
    requires Wired(st) && n <= |ops|
    ensures RecordedAs(Run(h, st, ops[..n]), k, Confirmed(digest)) <==> Standing(h, st, ops, n, k, digest)
  {
    ConfirmedAlong(ConfirmedIn(h, st, ops, k, digest), Confirmations(h, st, ops, k, digest), Revocations(h, st, ops, k), h, st, ops, n, k, digest);
    assert ops[..0] == [] && Run(h, st, []) == st;
  }

  lemma {:induction false} Persists(p: nat -> bool, m: nat, n: nat)
    requires p(m) && m <= n && forall j: nat :: m <= j < n && p(j) ==> p(j + 1)
    ensures p(n)
    decreases n - m
  {
    if m < n {
      assert p(m + 1);
      Persists(p, m + 1, n);
    }
  }

  ghost function RevokedIn(h: Digests, st: State, ops: seq<Op>, k: (string, string)): nat -> bool {
    (n: nat) => Wired(st) && n <= |ops| && RecordedAs(Run(h, st, ops[..n]), k, Revoked)
  }

  lemma RevokedKept(h: Digests, st: State, ops: seq<Op>, n: nat, k: (string, string))
    requires Wired(st) && n < |ops| && (RevokedIn(h, st, ops, k)(n) || Revocations(h, st, ops, k)(n))
    ensures RevokedIn(h, st, ops, k)(n + 1)
  {
    StepRecords(h, st, ops, n, k, "");
  }

  lemma RevokedNext(p: nat -> bool, h: Digests, st: State, ops: seq<Op>, j: nat, k: (string, string))
    requires p == RevokedIn(h, st, ops, k) && Wired(st) && j < |ops|
    ensures p(j) ==> p(j + 1)
  {
    if p(j) {
      RevokedKept(h, st, ops, j, k);
    }
  }

  lemma RevokedOnward(p: nat -> bool, h: Digests, st: State, ops: seq<Op>, m: nat, n: nat, k: (string, string))
    requires p == RevokedIn(h, st, ops, k) && Wired(st) && m <= n <= |ops| && p(m)
    ensures p(n)
  {
    forall j: nat | m <= j < n && p(j)
      ensures p(j + 1)
    {
      RevokedNext(p, h, st, ops, j, k);
    }
    Persists(p, m, n);
  }

  lemma RevokedStays(h: Digests, st: State, ops: seq<Op>, m: nat, n: nat, k: (string, string))
    requires Wired(st) && m < n <= |ops| && Revocations(h, st, ops, k)(m)
    ensures RevokedIn(h, st, ops, k)(n)
  {
    RevokedKept(h, st, ops, m, k);
    RevokedOnward(RevokedIn(h, st, ops, k), h, st, ops, m + 1, n, k);
  }

  /** A revoked decision stays revoked: it can never be confirmed again. */
  lemma {:induction false} RevokedForGood(h: Digests, st: State, ops: seq<Op>, m: nat, n: nat, k: (string, string), digest: string)
    requires Wired(st) && m < n <= |ops| && Revocations(h, st, ops, k)(m)
    ensures RecordedAs(Run(h, st, ops[..n]), k, Revoked) && !Standing(h, st, ops, n, k, digest)
  {
    RevokedStays(h, st, ops, m, n, k);
    RecordMeans(h, st, ops, n, k, digest);
  }

  // ----- what a push does, over a run -----

  /** What grew: an entry, its attempts, or a shelf. */
  ghost predicate Grew(before: State, after: State) {
    || |after.entries| > |before.entries|
    || (exists i :: 0 <= i < |before.entries| && i < |after.entries| && after.entries[i].attempts > before.entries[i].attempts)
    || (exists n :: 0 <= n < |before.shelves| && n < |after.shelves| && |after.shelves[n]| > |before.shelves[n]|)
  }

  lemma ReconcileGrowsNothing(h: Digests, st: State, s: Scope, after: State)
    requires Wired(st) && Reconciled(h, st, s, after)
    ensures !Grew(st, after)
  {
    var i := IndexOfEntry(st.entries, ScopeEffect(s));
    ClassifiedStep(h, st.entries[i], ArtifactAt(st, ScopeEffect(s)), Find(st, TransportOf(st, s), st.entries[i].reference, s));
  }

  lemma SameGrowsNothing(st: State, after: State)
    requires after.entries == st.entries && after.shelves == st.shelves
    ensures !Grew(st, after)
  {
  }

  lemma OnlyPushesGrow(h: Digests, st: State, op: Op)
    requires Wired(st) && !op.OutsideOp? && Grew(st, Step(h, st, op))
    ensures op.PushOp?
  {
    var after := Step(h, st, op);
    StepSteps(h, st, op);
    if !op.PushOp? {
      GrowthStepped(h, st, op, after);
    }
  }

  lemma GrowthStepped(h: Digests, st: State, op: Op, after: State)
    requires Wired(st) && Stepped(h, st, op, after) && !op.OutsideOp? && !op.PushOp?
    ensures !Grew(st, after)
  {
    if op.ReconcileOp? && after != st {
      ReconcileGrowsNothing(h, st, op.scope, after);
    } else {
      SameGrowsNothing(st, after);
    }
  }

  // ----- what confirms and what revokes -----

  /** A preview is confirmed exactly by the caller's own valid decision on the artifact it shows now, unless that decision is spent. */
  lemma ConfirmExactly(h: Digests, st: State, ctx: Context, s: Scope, d: Decision, now: int)
    requires Wired(st)
    ensures ConfirmPreview(h, st, ctx, s, d, now).1.Ok? <==>
              && (exists a :: Previewable(st, ctx, s, now, a) && DecidedBy(ctx, d, PushAction, h.artifact(a), now))
              && ((ctx.tenant, d.id) in st.decisions ==> OnRecord(h, st, ctx.tenant, d))
  {
    var preview := Preview(st, ctx, s, now);
    if preview.Ok? {
      PreviewExactly(st, ctx, s, now, preview.value);
    }
    forall a | Previewable(st, ctx, s, now, a)
      ensures preview == Ok(a)
    {
      PreviewExactly(st, ctx, s, now, a);
    }
  }

  lemma RevokeExactly(h: Digests, st: State, ctx: Context, d: Decision)
    ensures RevokeConfirmation(h, st, ctx, d).1.None? <==>
              st.enabled && ctx.canExport && d.tenant == ctx.tenant && d.actor == ctx.actor && OnRecord(h, st, ctx.tenant, d)
  {
  }

  // ----- what is recorded and stored -----

  /** A new entry carries the artifact's scope and source, its digest and the effect's reference. */
  predicate EntryFor(h: Digests, e: Entry, a: Artifact) {
    && e.tenant == a.scope.tenant && e.job == a.scope.job && e.company == a.scope.company && e.sourceId == a.scope.sourceId
    && e.sourceRevision == a.scope.sourceRevision && e.mappingRevision == a.scope.mapping.revision
    && e.kind == a.source.kind && e.invoiceId == a.source.invoiceId && e.pence == a.source.pence
    && e.reference == h.effect(Effect(a.scope.tenant, a.scope.company, a.scope.sourceId)) && e.contentHash == h.artifact(a)
  }

  /** The object a push stores carries the artifact's target under its entry's reference. */
  predicate ObjectFrom(o: External, tenant: string, target: Target, e: Entry) {
    o.tenant == tenant && o.payload == target && o.reference == e.reference && o.contentHash == e.contentHash && !o.paid
  }

  ghost predicate PushRecords(h: Digests, st: State, s: Scope, a: Artifact, after: State) {
    var k := Effect(s.tenant, s.company, s.sourceId);
    var i := IndexOfEntry(st.entries, k);
    && i < |after.entries|
    && (if i < |st.entries| then |after.entries| == |st.entries| && SameRecord(st.entries[i], after.entries[i])
        else |after.entries| == |st.entries| + 1 && EntryFor(h, after.entries[i], a))
    && (forall j :: 0 <= j < |st.entries| && j != i ==> after.entries[j] == st.entries[j])
    && (if k in st.artifacts then after.artifacts == st.artifacts else after.artifacts == st.artifacts[k := a])
    && |after.shelves| == |st.shelves|
    && (forall n :: 0 <= n < |st.shelves| ==>
          || after.shelves[n] == st.shelves[n]
          || (|after.shelves[n]| == |st.shelves[n]| + 1 && after.shelves[n][..|st.shelves[n]|] == st.shelves[n]
              && ObjectFrom(after.shelves[n][|st.shelves[n]|], s.tenant, a.target, after.entries[i])))
  }

  lemma RecordedIndex(h: Digests, st: State, s: Scope, a: Artifact, mid: State)
    requires Records(h, st, s, a, mid) && a.scope == s
    ensures IndexOfEntry(mid.entries, ScopeEffect(s)) == IndexOfEntry(st.entries, ScopeEffect(s)) < |mid.entries|
  {
    if IndexOfEntry(st.entries, ScopeEffect(s)) == |st.entries| {
      AppendedIndex(st.entries, NewEntry(h, a));
    }
  }

  lemma DeliveredShelves(mid: State, s: Scope, target: Target, after: State, n: nat)
    requires Wired(mid) && Delivered(mid, s, target, after) && n < |mid.shelves|
    ensures |after.shelves| == |mid.shelves|
    ensures || after.shelves[n] == mid.shelves[n]
            || (|after.shelves[n]| == |mid.shelves[n]| + 1 && after.shelves[n][..|mid.shelves[n]|] == mid.shelves[n]
                && ObjectFrom(after.shelves[n][|mid.shelves[n]|], s.tenant, target, after.entries[IndexOfEntry(mid.entries, ScopeEffect(s))]))
  {
  }

  lemma PushedRecords(h: Digests, st: State, s: Scope, a: Artifact, mid: State, after: State)
    requires Pushes(h, st, s, a, mid, after) && a.scope == s
    ensures PushRecords(h, st, s, a, after)
  {
    RecordedIndex(h, st, s, a, mid);
    forall n | 0 <= n < |st.shelves|
      ensures |after.shelves| == |st.shelves|
      ensures || after.shelves[n] == st.shelves[n]
              || (|after.shelves[n]| == |st.shelves[n]| + 1 && after.shelves[n][..|st.shelves[n]|] == st.shelves[n]
                  && ObjectFrom(after.shelves[n][|st.shelves[n]|], s.tenant, a.target, after.entries[IndexOfEntry(st.entries, ScopeEffect(s))]))
    {
      DeliveredShelves(mid, s, a.target, after, n);
    }
    assert |after.shelves| == |mid.shelves| == |st.shelves|;
  }

  /** An admitted push records its entry and artifact, and stores at most one object, all carrying the source as it is. */
  lemma PushDoes(h: Digests, st: State, ctx: Context, c: Command, now: int, a: Artifact)
    requires Wired(st) && MayPush(h, st, ctx, c, now, a)
    ensures PushRecords(h, st, c.scope, a, Push(h, st, ctx, c, now).0)
  {
    PreviewExactly(st, ctx, c.scope, now, a);
    PushRefusalExactly(h, st, ctx, c, now, a);
    PreviewPreviews(st, ctx, c.scope, now);
    var mid := AdmittedPush(h, st, ctx, c, now, a);
    DeliverDelivers(h, mid, ctx, c.scope, a, now);
    PushRecorded(h, st, ctx, c, a, mid, Push(h, st, ctx, c, now).0, now);
  }

  lemma PushRecorded(h: Digests, st: State, ctx: Context, c: Command, a: Artifact, mid: State, after: State, now: int)
    requires Wired(st) && Previewed(st, c.scope, a) && PushRefusal(h, st, ctx, c, a, now).None? && a.scope == c.scope
    requires Wired(mid) && mid == Recorded(h, st, ctx, c, a) && Delivered(mid, c.scope, a.target, after)
    ensures PushRecords(h, st, c.scope, a, after)
  {
    PushedRecords(h, st, c.scope, a, mid, after);
  }

  lemma PushAdmitted(h: Digests, st: State, ctx: Context, c: Command, now: int)
    requires Wired(st) && Push(h, st, ctx, c, now).0 != st
    ensures OnRecord(h, st, ctx.tenant, c.decision)
    ensures exists a :: MayPush(h, st, ctx, c, now, a) && PushRecords(h, st, c.scope, a, Push(h, st, ctx, c, now).0)
  {
    if a :| MayPush(h, st, ctx, c, now, a) {
      PushDoes(h, st, ctx, c, now, a);
    } else {
      PushNeedsAll(h, st, ctx, c, now);
    }
  }

  /**
   * Nothing is recorded, tried or stored in a run except by a push that may be made: with current consent
   * and source, and a decision of the caller's own, for a push, unexpired, over the digest of the very
   * artifact, confirmed earlier and not revoked since. What it records and stores carries that source.
   */
  lemma {:induction false} ApprovedOnly(h: Digests, st: State, ops: seq<Op>, n: nat)
    requires Wired(st) && n < |ops| && !ops[n].OutsideOp?
    requires Grew(Run(h, st, ops[..n]), Run(h, st, ops[..n + 1]))
    ensures ops[n].PushOp?
    ensures var d, tenant := ops[n].command.decision, ops[n].ctx.tenant; Standing(h, st, ops, n, (tenant, d.id), h.decision(d))
    ensures exists a ::
              && MayPush(h, Run(h, st, ops[..n]), ops[n].ctx, ops[n].command, ops[n].now, a)
              && PushRecords(h, Run(h, st, ops[..n]), ops[n].command.scope, a, Run(h, st, ops[..n + 1]))
  {
    var before := Run(h, st, ops[..n]);
    assert ops[..n + 1][..n] == ops[..n];
    RunLast(h, st, ops[..n + 1]);
    OnlyPushesGrow(h, before, ops[n]);
    PushAdmitted(h, before, ops[n].ctx, ops[n].command, ops[n].now);
    RecordMeans(h, st, ops, n, (ops[n].ctx.tenant, ops[n].command.decision.id), h.decision(ops[n].command.decision));
  }

  /** After its decision was revoked at position m, a push under it changes nothing, at any later time. */
  lemma {:induction false} RevokedPushRefused(h: Digests, st: State, ops: seq<Op>, m: nat, ctx: Context, c: Command, now: int)
    requires Wired(st) && m < |ops| && Revocations(h, st, ops, (ctx.tenant, c.decision.id))(m)
    ensures Push(h, Run(h, st, ops), ctx, c, now).0 == Run(h, st, ops) && Push(h, Run(h, st, ops), ctx, c, now).1.Err?
  {
    assert ops[..|ops|] == ops;
    RevokedForGood(h, st, ops, m, |ops|, (ctx.tenant, c.decision.id), h.decision(c.decision));
    PushNeedsAll(h, Run(h, st, ops), ctx, c, now);
  }

  // ----- what a delivery and a reconciliation record -----

  /** The outcome of one delivery, by how the transport answers. */
  predicate Outcome(mode: Mode, before: Entry, after: Entry, shelf: nat, now: int) {
    match mode
    case Success => after == before.(attempts := before.attempts + 1, status := Pushed, externalId := Some("demo-external-" + Decimals.Decimal(shelf + 1)), retryAt := None)
    case RateLimit => after == before.(attempts := before.attempts + 1, status := RateLimited, retryAt := Some(now + 30))
    case Reject => after == before.(attempts := before.attempts + 1, status := Failed)
    case UnknownBefore => after == before.(attempts := before.attempts + 1, status := OutcomeUnknown)
    case UnknownAfter => after == before.(attempts := before.attempts + 1, status := OutcomeUnknown)
  }

  /** A delivery asks the current route's transport once; the object is stored when it succeeds or its answer is lost afterwards. */
  lemma CreateMeans(h: Digests, st: State, ctx: Context, s: Scope, i: nat, target: Target, now: int)
    requires Wired(st) && i < |st.entries|
    ensures var route, after := CurrentRoute(st, RouteKeyOf(s)), Create(h, st, ctx, s, i, target, now).0;
            var t := st.transports[route];
            && after.entries == st.entries[i := after.entries[i]] && Outcome(t.next, st.entries[i], after.entries[i], |st.shelves[t.shelf]|, now)
            && after.transports == st.transports[route := t.(next := Success, pushes := t.pushes + 1)]
            && (|after.shelves[t.shelf]| > |st.shelves[t.shelf]| <==> t.next == Success || t.next == UnknownAfter)
  {
  }

  /** What one object found under an entry's reference says of it. */
  predicate OwnObject(h: Digests, e: Entry, artifact: Option<Artifact>, o: External) {
    o.contentHash == e.contentHash && artifact.Some? && h.target(artifact.value.target) == h.target(o.payload)
  }

  /** The status and identity an entry has after its route was looked at. */
  predicate Classifies(h: Digests, before: Entry, artifact: Option<Artifact>, found: seq<External>, after: Entry) {
    && (after.status == DuplicateImport <==> |found| >= 2)
    && (after.status == ConfirmedAbsent <==> found == [] && before.externalId.None?)
    && (after.status == ReferenceConflict <==>
          before.externalId.Some? && (found == [] || (|found| == 1 && found[0].id != before.externalId.value)))
    && (after.status == ExternalEdit <==>
          |found| == 1 && (before.externalId.None? || before.externalId.value == found[0].id) && !OwnObject(h, before, artifact, found[0]))
    && (after.status == Pushed <==>
          |found| == 1 && (before.externalId.None? || before.externalId.value == found[0].id) && OwnObject(h, before, artifact, found[0]))
    && (if after.status == Pushed then after == before.(status := Pushed, externalId := Some(found[0].id), retryAt := None)
        else after == before.(status := after.status))
  }

  lemma ReconcileMeans(h: Digests, st: State, ctx: Context, s: Scope, now: int)
    requires Wired(st) && Reconcile(h, st, ctx, s, now).1.Ok?
    ensures var i, after := IndexOfEntry(st.entries, ScopeEffect(s)), Reconcile(h, st, ctx, s, now).0;
            && i < |st.entries| && after.entries == st.entries[i := after.entries[i]]
            && Classifies(h, st.entries[i], ArtifactAt(st, ScopeEffect(s)),
                       Find(st, TransportOf(st, s), st.entries[i].reference, s), after.entries[i])
  {
  }

  // ----- route changes -----

  function RouteNow(st: State, s: Scope): Route {
    if RouteKey(s.tenant, s.company, s.job) in st.routes then st.routes[RouteKey(s.tenant, s.company, s.job)] else st.defaultRoute
  }

  /** The one object the transport shows for an entry is its own. */
  predicate ShownAsOwn(h: Digests, st: State, t: Transport, e: Entry)
    requires t.shelf < |st.shelves|
  {
    var found := Filter(st.shelves[t.shelf], Matching(e.tenant, e.company, e.reference));
    var k := Effect(e.tenant, e.company, e.sourceId);
    && |found| == 1 && e.externalId == Some(found[0].id) && found[0].contentHash == e.contentHash
    && k in st.artifacts && h.target(found[0].payload) == h.target(st.artifacts[k].target)
  }

  /** An entry is pushed, and both routes show its own object. */
  predicate ShownOnRoutes(h: Digests, st: State, current: Transport, target: Transport, e: Entry)
    requires current.shelf < |st.shelves| && target.shelf < |st.shelves|
  {
    e.status == Pushed && current.connection(e.tenant, e.company).Some? && ShownAsOwn(h, st, current, e) && ShownAsOwn(h, st, target, e)
  }

  ghost predicate JobShown(h: Digests, st: State, s: Scope, r: Route)
    requires Wired(st) && r in st.transports
  {
    forall e :: e in st.entries && e.tenant == s.tenant && e.company == s.company && e.job == s.job ==>
      ShownOnRoutes(h, st, st.transports[RouteNow(st, s)], st.transports[r], e)
  }

  /** What a change of route shows for decision. */
  ghost predicate RouteShown(h: Digests, st: State, ctx: Context, s: Scope, r: Route, now: int, a: RouteArtifact)
    requires Wired(st)
  {
    && Authorised(st, ctx, s, now) && s.mapping.tenant == s.tenant && s.mapping.company == s.company
    && (s.tenant, s.sourceId) in st.sources
    && st.sources[(s.tenant, s.sourceId)].job == s.job && st.sources[(s.tenant, s.sourceId)].revision == s.sourceRevision
    && r in st.transports && st.transports[r].connection(s.tenant, s.company) == Some(a.connectionRevision) && JobShown(h, st, s, r)
    && a.scope == s && a.from == RouteNow(st, s) && a.to == r && a.consentRevision == st.consents[(s.tenant, s.company)].revision
    && a.entries == Filter(st.entries, OnRoute(s))
  }

  /** Everything a change of route needs. */
  ghost predicate MaySwitch(h: Digests, st: State, ctx: Context, s: Scope, r: Route, d: Decision, now: int, a: RouteArtifact)
    requires Wired(st)
  {
    RouteShown(h, st, ctx, s, r, now, a) && DecidedBy(ctx, d, RouteAction, h.routeArtifact(a), now) && (ctx.tenant, d.id) !in st.decisions
  }

  lemma ShownExactly(h: Digests, st: State, t: Transport, e: Entry, s: Scope)
    requires t.shelf < |st.shelves| && e.tenant == s.tenant && e.company == s.company
    ensures ShowsExactly(h, st, t, e, s) <==> ShownAsOwn(h, st, t, e)
  {
  }

  lemma BothExactly(h: Digests, st: State, r: Route, e: Entry, s: Scope)
    requires Wired(st) && r in st.transports && e.tenant == s.tenant && e.company == s.company
    requires TransportOf(st, s).connection(s.tenant, s.company).Some?
    ensures e.status == Pushed && ShownOnBoth(h, st, r, e, s) <==> ShownOnRoutes(h, st, st.transports[RouteNow(st, s)], st.transports[r], e)
  {
    ShownExactly(h, st, TransportOf(st, s), e, s);
    ShownExactly(h, st, st.transports[r], e, s);
  }

  lemma HistoryExactly(h: Digests, st: State, s: Scope, r: Route)
    requires Wired(st) && r in st.transports
    ensures HistoryRefusal(h, st, s, r, Filter(st.entries, OnRoute(s))).None? <==> JobShown(h, st, s, r)
  {
    var entries := Filter(st.entries, OnRoute(s));
    if entries != [] && TransportOf(st, s).connection(s.tenant, s.company).None? {
      assert entries[0] in entries && entries[0] in st.entries && OnRoute(s)(entries[0]);
    } else if entries != [] {
      forall e | e in entries
        ensures e.status == Pushed && ShownOnBoth(h, st, r, e, s) <==> ShownOnRoutes(h, st, st.transports[RouteNow(st, s)], st.transports[r], e)
      {
        BothExactly(h, st, r, e, s);
      }
      AllShown(h, st, s, r, entries);
    }
  }

  lemma AllShown(h: Digests, st: State, s: Scope, r: Route, entries: seq<Entry>)
    requires Wired(st) && r in st.transports && TransportOf(st, s).connection(s.tenant, s.company).Some?
    requires forall e :: e in entries ==>
               (e.status == Pushed && ShownOnBoth(h, st, r, e, s) <==> ShownOnRoutes(h, st, st.transports[RouteNow(st, s)], st.transports[r], e))
    ensures HistoryRefusal(h, st, s, r, entries).None? <==>
              forall e :: e in entries ==> ShownOnRoutes(h, st, st.transports[RouteNow(st, s)], st.transports[r], e)
  {
  }

  lemma PreviewRouteExactly(h: Digests, st: State, ctx: Context, s: Scope, r: Route, now: int, a: RouteArtifact)
    requires Wired(st)
    ensures PreviewRoute(h, st, ctx, s, r, now) == Ok(a) <==> RouteShown(h, st, ctx, s, r, now, a)
  {
    AuthorisedExactly(st, ctx, s, now);
    if r in st.transports {
      HistoryExactly(h, st, s, r);
    }
  }

  /** A change of route is approved exactly if everything it needs is there. */
  lemma RouteApprovedExactly(h: Digests, st: State, ctx: Context, s: Scope, r: Route, d: Decision, now: int, a: RouteArtifact)
    requires Wired(st)
    ensures RouteApproval(h, st, ctx, s, r, d, now) == Ok(a) <==> MaySwitch(h, st, ctx, s, r, d, now, a)
  {
    PreviewRouteExactly(h, st, ctx, s, r, now, a);
  }

  lemma OnlyRouteOpsSwitch(h: Digests, st: State, op: Op)
    requires Wired(st) && Step(h, st, op).routes != st.routes
    ensures op.RouteOp?
    ensures exists a :: MaySwitch(h, st, op.ctx, op.scope, op.route, op.decision, op.now, a)
    ensures Step(h, st, op).routes == st.routes[RouteKey(op.scope.tenant, op.scope.company, op.scope.job) := op.route]
  {
    var after := Step(h, st, op);
    StepSteps(h, st, op);
    SteppedRoutes(h, st, op, after);
    var approval := RouteApproval(h, st, op.ctx, op.scope, op.route, op.decision, op.now);
    assert approval.Ok?;
    RouteApprovedExactly(h, st, op.ctx, op.scope, op.route, op.decision, op.now, approval.value);
  }

  lemma SteppedRoutes(h: Digests, st: State, op: Op, after: State)
    requires Wired(st) && Stepped(h, st, op, after) && after.routes != st.routes
    ensures op.RouteOp?
  {
  }

  ghost function KnownIn(h: Digests, st: State, ops: seq<Op>, k: (string, string)): nat -> bool {
    (n: nat) => Wired(st) && n <= |ops| && k in Run(h, st, ops[..n]).decisions
  }

  lemma KnownNext(p: nat -> bool, h: Digests, st: State, ops: seq<Op>, n: nat, k: (string, string), digest: string)
    requires p == KnownIn(h, st, ops, k) && Wired(st) && n < |ops|
    ensures p(n) || Confirmations(h, st, ops, k, digest)(n) ==> p(n + 1)
  {
    StepRecords(h, st, ops, n, k, digest);
  }

  lemma KnownLater(p: nat -> bool, h: Digests, st: State, ops: seq<Op>, m: nat, n: nat, k: (string, string))
    requires p == KnownIn(h, st, ops, k) && Wired(st) && m <= n <= |ops| && p(m)
    ensures p(n)
  {
    forall j: nat | m <= j < n && p(j)
      ensures p(j + 1)
    {
      KnownNext(p, h, st, ops, j, k, "");
    }
    Persists(p, m, n);
  }

  lemma NotConfirmedYet(h: Digests, st: State, ops: seq<Op>, n: nat, k: (string, string), m: nat, digest: string)
    requires Wired(st) && m < n <= |ops| && !KnownIn(h, st, ops, k)(n)
    ensures !Confirmations(h, st, ops, k, digest)(m)
  {
    if Confirmations(h, st, ops, k, digest)(m) {
      KnownNext(KnownIn(h, st, ops, k), h, st, ops, m, k, digest);
      KnownLater(KnownIn(h, st, ops, k), h, st, ops, m + 1, n, k);
    }
  }

  /**
   * A route moves in a run only by a change that may be made: with current consent and source, every
   * entry of the job shown on both routes, and a decision of the caller's own, for a route, unexpired,
   * over the digest of what was shown, that was never confirmed before.
   */
  lemma {:induction false} SwitchedOnly(h: Digests, st: State, ops: seq<Op>, n: nat)
    requires Wired(st) && n < |ops| && Run(h, st, ops[..n + 1]).routes != Run(h, st, ops[..n]).routes
    ensures ops[n].RouteOp?
    ensures exists a :: MaySwitch(h, Run(h, st, ops[..n]), ops[n].ctx, ops[n].scope, ops[n].route, ops[n].decision, ops[n].now, a)
    ensures forall m: nat, digest :: m < n ==> !Confirmations(h, st, ops, (ops[n].ctx.tenant, ops[n].decision.id), digest)(m)
  {
    assert ops[..n + 1][..n] == ops[..n];
    RunLast(h, st, ops[..n + 1]);
    OnlyRouteOpsSwitch(h, Run(h, st, ops[..n]), ops[n]);
    var k := (ops[n].ctx.tenant, ops[n].decision.id);
    forall m: nat, digest | m < n
      ensures !Confirmations(h, st, ops, k, digest)(m)
    {
      NotConfirmedYet(h, st, ops, n, k, m, digest);
    }
  }
}
