/**
 * The accounting export protocol (apps/api/src/accounting-export.sandbox.ts over
 * accounting-export.fake.ts): the specification its classes are proved against. Inputs are the
 * values the schemas accept. Digests of values are abstract functions.
 */
module Accounting {
  import opened Prelude
  import opened Decimals

  // ----- data -----

  datatype Route = Codat | Xero | QuickBooks
  datatype Tax = Unsupported | NoTax | Standard | ZeroRated
  datatype Kind = CustomerInvoice | Credit | Receipt
  datatype SourceState = Issued | Posted | Cancelled | Superseded
  datatype FinalAccount = FinalAccount(revision: int, lockedRevision: int)

  datatype Source = Source(tenant: string, job: string, id: string, revision: int, kind: Kind, pence: int,
                           state: SourceState, finalAccount: Option<FinalAccount>,
                           invoiceId: Option<string>, invoiceRevision: Option<int>, tax: Tax)

  datatype Mapping = Mapping(tenant: string, company: string, revision: int, account: string, customer: string, tax: Tax)

  datatype Scope = Scope(tenant: string, job: string, company: string, sourceId: string, sourceRevision: int, mapping: Mapping)

  datatype ObjectType = Invoice | CreditNote | Payment

  datatype Target = Target(company: string, objectType: ObjectType, sourceId: string, sourceRevision: int,
                           invoiceId: Option<string>, invoiceRevision: Option<int>, pence: int,
                           account: string, customer: string, tax: Tax)

  datatype Artifact = Artifact(route: Route, connectionRevision: nat, scope: Scope, source: Source,
                               consentRevision: int, target: Target)

  datatype Context = Context(tenant: string, actor: string, canExport: bool)
  datatype Consent = Consent(tenant: string, company: string, revision: int, expiresAt: int, revoked: bool)
  datatype Action = PushAction | RouteAction
  datatype Decision = Decision(id: string, tenant: string, actor: string, action: Action, previewHash: string, expiresAt: int)
  datatype Command = Command(id: string, idempotencyKey: string, scope: Scope, decision: Decision)

  datatype Status = Pending | Pushed | Failed | OutcomeUnknown | ExternalEdit | DuplicateImport
    | ReferenceConflict | ConfirmedAbsent | RateLimited

  datatype Effect = Effect(tenant: string, company: string, sourceId: string)

  datatype Entry = Entry(tenant: string, job: string, company: string, sourceId: string, sourceRevision: int,
                         mappingRevision: int, kind: Kind, invoiceId: Option<string>, pence: int,
                         reference: string, contentHash: string,
                         status: Status, externalId: Option<string>, attempts: nat, retryAt: Option<int>)

  datatype Code = Disabled | InvalidInput | Forbidden | SourceUnavailable | RefConflict | ApprovalRequired
    | ConsentExpired | ReplayConflict | ReconcileRequired | UnsupportedMapping | ConnectionRequired | TooEarly

  datatype External = External(id: string, tenant: string, reference: string, contentHash: string, paid: bool, payload: Target)

  datatype Mode = Success | Reject | UnknownBefore | UnknownAfter | RateLimit

  /** A transport writes to a shelf of external objects, which other transports may share. */
  datatype Transport = Transport(shelf: nat, next: Mode, pushes: nat, connection: (string, string) -> Option<nat>)

  datatype ReplayKey = CommandKey(tenant: string, id: string) | IdempotencyKey(tenant: string, key: string)
  datatype CommandRecord = CommandRecord(fingerprint: string, effect: Effect)
  datatype DecisionMark = Confirmed(digest: string) | Revoked
  datatype AuditEvent = AuditEvent(tenant: string, reference: string, status: Status)
  datatype RouteKey = RouteKey(tenant: string, company: string, job: string)
  datatype RouteArtifact = RouteArtifact(scope: Scope, from: Route, to: Route, connectionRevision: nat,
                                         consentRevision: int, entries: seq<Entry>)
  datatype RouteChange = RouteChange(scope: Scope, from: Route, to: Route, previewHash: string, decisionId: string)

  datatype Digests = Digests(effect: Effect -> string, artifact: Artifact -> string, target: Target -> string,
                             binding: (Scope, Source, Target) -> string, decision: Decision -> string,
                             command: Command -> string, routeArtifact: RouteArtifact -> string)

  datatype State = State(enabled: bool, defaultRoute: Route,
                         sources: map<(string, string), Source>, consents: map<(string, string), Consent>,
                         entries: seq<Entry>, artifacts: map<Effect, Artifact>,
                         commands: map<ReplayKey, CommandRecord>, decisions: map<(string, string), DecisionMark>,
                         audit: seq<AuditEvent>, routes: map<RouteKey, Route>, routeChanges: seq<RouteChange>,
                         transports: map<Route, Transport>, shelves: seq<seq<External>>)

  // ----- lookups -----

  predicate IdChar(c: char) {
    'a' <= c <= 'z' || '0' <= c <= '9' || c == '-'
  }

  predicate DemoId(s: string) {
    |s| > 5 && s[..5] == "demo-" && forall c :: c in s[5..] ==> IdChar(c)
  }

  function EffectOf(e: Entry): Effect {
    Effect(e.tenant, e.company, e.sourceId)
  }

  function ScopeEffect(s: Scope): Effect {
    Effect(s.tenant, s.company, s.sourceId)
  }

  function IndexOfEntry(entries: seq<Entry>, k: Effect): (i: nat)
    ensures i <= |entries|
    ensures i < |entries| ==> EffectOf(entries[i]) == k
    ensures forall j :: 0 <= j < i ==> EffectOf(entries[j]) != k
  {
    if entries == [] || EffectOf(entries[0]) == k then 0 else 1 + IndexOfEntry(entries[1..], k)
  }

  function RouteKeyOf(s: Scope): RouteKey {
    RouteKey(s.tenant, s.company, s.job)
  }

  function CurrentRoute(st: State, k: RouteKey): Route {
    if k in st.routes then st.routes[k] else st.defaultRoute
  }

  /** Every route in use has a transport and every transport a shelf. */
  ghost predicate Wired(st: State) {
    && st.defaultRoute in st.transports
    && (forall k :: k in st.routes ==> st.routes[k] in st.transports)
    && (forall r :: r in st.transports ==> st.transports[r].shelf < |st.shelves|)
  }

  /** Sources are filed under their own tenant and id. */
  ghost predicate SourcesKeyed(st: State) {
    forall k :: k in st.sources ==> st.sources[k].tenant == k.0 && st.sources[k].id == k.1
  }

  function TransportOf(st: State, s: Scope): Transport
    requires Wired(st)
  {
    st.transports[CurrentRoute(st, RouteKeyOf(s))]
  }

  predicate SameRef(o: External, tenant: string, company: string, reference: string) {
    o.tenant == tenant && o.payload.company == company && o.reference == reference
  }

  function Matching(tenant: string, company: string, reference: string): External -> bool {
    (o: External) => SameRef(o, tenant, company, reference)
  }

  /** The objects a transport finds under a reference for one tenant and company. */
  function Find(st: State, t: Transport, reference: string, s: Scope): seq<External>
    requires t.shelf < |st.shelves|
  {
    Filter(st.shelves[t.shelf], Matching(s.tenant, s.company, reference))
  }

  // ----- authorization and preview -----

  const MAX_SAFE_INTEGER := 9_007_199_254_740_991

  predicate SafeInteger(n: int) {
    -MAX_SAFE_INTEGER <= n <= MAX_SAFE_INTEGER
  }

  function Authorize(st: State, ctx: Context, s: Scope, now: int): Result<Consent, Code> {
    if !st.enabled then Err(Disabled)
    else if !SafeInteger(now) then Err(InvalidInput)
    else if !ctx.canExport || ctx.tenant != s.tenant || !DemoId(ctx.actor) then Err(Forbidden)
    else if (s.tenant, s.company) !in st.consents then Err(ConsentExpired)
    else
      var c := st.consents[(s.tenant, s.company)];
      if c.revoked || c.expiresAt <= now then Err(ConsentExpired) else Ok(c)
  }

  predicate FinalMismatch(s: Source) {
    s.finalAccount.Some? && s.finalAccount.value.revision != s.finalAccount.value.lockedRevision
  }

  function FamilyOf(s: Source): string {
    if s.invoiceId.Some? then s.invoiceId.value else s.id
  }

  /** An artifact of the same invoice family that is bound to another company or customer. */
  predicate BoundElsewhere(a: Artifact, source: Source, s: Scope) {
    && (source.invoiceId.Some? || a.source.invoiceId.Some?)
    && a.scope.tenant == s.tenant && FamilyOf(a.source) == FamilyOf(source)
    && (a.scope.company != s.company || a.scope.mapping.customer != s.mapping.customer)
  }

  function Against(tenant: string, invoiceId: Option<string>): Entry -> bool {
    (e: Entry) => e.tenant == tenant && e.invoiceId == invoiceId
  }

  function NotOwn(company: string, sourceId: string): Entry -> bool {
    (e: Entry) => !(e.company == company && e.sourceId == sourceId)
  }

  function EntryPence(): Entry -> int { (e: Entry) => e.pence }

  /** What the other entries against the source's invoice already reserve. */
  function ReservedByOthers(entries: seq<Entry>, s: Scope, source: Source): int {
    SumBy(Filter(Filter(entries, Against(s.tenant, source.invoiceId)), NotOwn(s.company, source.id)), EntryPence())
  }

  predicate InvoiceFits(st: State, s: Scope, source: Source) {
    source.invoiceId.Some? ==>
      && (s.tenant, source.invoiceId.value) in st.sources
      && var invoice := st.sources[(s.tenant, source.invoiceId.value)];
         && Some(invoice.revision) == source.invoiceRevision && !FinalMismatch(invoice) && invoice.job == s.job
         && invoice.kind == CustomerInvoice && invoice.state == Issued && source.pence <= invoice.pence
         && ReservedByOthers(st.entries, s, source) + source.pence <= invoice.pence
  }

  function ObjectTypeOf(k: Kind): ObjectType {
    match k case CustomerInvoice => Invoice case Credit => CreditNote case Receipt => Payment
  }

  function TargetOf(s: Scope, source: Source): Target {
    Target(s.company, ObjectTypeOf(source.kind), source.id, source.revision, source.invoiceId, source.invoiceRevision,
           source.pence, s.mapping.account, s.mapping.customer, source.tax)
  }

  predicate Available(s: Scope, source: Source) {
    && source.job == s.job && source.revision == s.sourceRevision
    && source.state == (if source.kind == CustomerInvoice then Issued else Posted)
    && !FinalMismatch(source)
  }

  predicate InvoiceLinkShape(source: Source) {
    if source.kind == CustomerInvoice then source.invoiceId.None? && source.invoiceRevision.None?
    else source.invoiceId.Some? && source.invoiceRevision.Some?
  }

  /** The artifact for the scope's source, once the caller is authorized and connected. */
  function Drafted(st: State, s: Scope, route: Route, connection: nat, consentRevision: int): Result<Artifact, Code> {
    if (s.tenant, s.sourceId) !in st.sources || !Available(s, st.sources[(s.tenant, s.sourceId)]) then Err(SourceUnavailable)
    else
      var source := st.sources[(s.tenant, s.sourceId)];
      if !InvoiceLinkShape(source) then Err(RefConflict)
      else if exists k :: k in st.artifacts && BoundElsewhere(st.artifacts[k], source, s) then Err(RefConflict)
      else if !InvoiceFits(st, s, source) then Err(RefConflict)
      else if source.tax != s.mapping.tax || (route != Codat && source.tax == Unsupported) then Err(UnsupportedMapping)
      else Ok(Artifact(route, connection, s, source, consentRevision, TargetOf(s, source)))
  }

  function Preview(st: State, ctx: Context, s: Scope, now: int): Result<Artifact, Code>
    requires Wired(st)
  {
    var consent := Authorize(st, ctx, s, now);
    if consent.Err? then Err(consent.error)
    else if s.mapping.tenant != s.tenant || s.mapping.company != s.company then Err(RefConflict)
    else
      var connection := TransportOf(st, s).connection(s.tenant, s.company);
      if connection.None? then Err(ConnectionRequired)
      else Drafted(st, s, CurrentRoute(st, RouteKeyOf(s)), connection.value, consent.value.revision)
  }

  // ----- decisions -----

  predicate DecisionFits(ctx: Context, d: Decision, action: Action, digest: string, now: int) {
    d.tenant == ctx.tenant && d.actor == ctx.actor && d.expiresAt > now && d.previewHash == digest && d.action == action
  }

  /** Whether a decision approves what the preview shows now. */
  function Approval(h: Digests, st: State, ctx: Context, s: Scope, d: Decision, now: int): Option<Code>
    requires Wired(st)
  {
    var preview := Preview(st, ctx, s, now);
    if preview.Err? then Some(preview.error)
    else if !DecisionFits(ctx, d, PushAction, h.artifact(preview.value), now) then Some(ApprovalRequired)
    else if (ctx.tenant, d.id) in st.decisions && st.decisions[(ctx.tenant, d.id)] != Confirmed(h.decision(d)) then Some(ReplayConflict)
    else None
  }

  function ConfirmPreview(h: Digests, st: State, ctx: Context, s: Scope, d: Decision, now: int): (after: (State, Result<Decision, Code>))
    requires Wired(st)
    ensures Wired(after.0)
  {
    var refusal := Approval(h, st, ctx, s, d, now);
    if refusal.Some? then (st, Err(refusal.value))
    else (st.(decisions := st.decisions[(ctx.tenant, d.id) := Confirmed(h.decision(d))]), Ok(d))
  }

  function RevokeConfirmation(h: Digests, st: State, ctx: Context, d: Decision): (after: (State, Option<Code>))
    ensures Wired(st) ==> Wired(after.0)
  {
    var k := (ctx.tenant, d.id);
    if !st.enabled then (st, Some(Disabled))
    else if !ctx.canExport || d.tenant != ctx.tenant || d.actor != ctx.actor then (st, Some(Forbidden))
    else if k !in st.decisions || st.decisions[k] != Confirmed(h.decision(d)) then (st, Some(ApprovalRequired))
    else (st.(decisions := st.decisions[k := Revoked]), None)
  }

  // ----- reconciliation -----

  /** What the objects found under the entry's reference say about it. */
  function Classified(h: Digests, e: Entry, artifact: Option<Artifact>, found: seq<External>): Entry {
    if |found| > 1 then e.(status := DuplicateImport)
    else if found == [] then e.(status := if e.externalId.Some? then ReferenceConflict else ConfirmedAbsent)
    else if e.externalId.Some? && e.externalId.value != found[0].id then e.(status := ReferenceConflict)
    else if e.contentHash != found[0].contentHash || artifact.None? || h.target(artifact.value.target) != h.target(found[0].payload)
    then e.(status := ExternalEdit)
    else e.(externalId := Some(found[0].id), status := Pushed, retryAt := None)
  }

  function WithEntry(st: State, i: nat, e: Entry): (r: State)
    requires i < |st.entries|
    ensures (Wired(st) ==> Wired(r)) && |r.entries| == |st.entries|
  {
    st.(entries := st.entries[i := e])
  }

  /** The entry's outcome is stored and appended to the audit trail. */
  function Noted(st: State, ctx: Context, i: nat, e: Entry): (r: State)
    requires i < |st.entries|
    ensures Wired(st) ==> Wired(r)
  {
    st.(entries := st.entries[i := e], audit := st.audit + [AuditEvent(ctx.tenant, e.reference, e.status)])
  }

  function ArtifactAt(st: State, k: Effect): Option<Artifact> {
    if k in st.artifacts then Some(st.artifacts[k]) else None
  }

  /** The entry after its current route has been looked at. */
  function Observed(h: Digests, st: State, s: Scope, e: Entry): Entry
    requires Wired(st)
  {
    Classified(h, e, ArtifactAt(st, EffectOf(e)), Find(st, TransportOf(st, s), e.reference, s))
  }

  /** Why a reconciliation is refused before it looks. */
  function ReconcileRefusal(st: State, ctx: Context, s: Scope, now: int): Option<Code>
    requires Wired(st)
    ensures ReconcileRefusal(st, ctx, s, now).None? ==>
              var i := IndexOfEntry(st.entries, ScopeEffect(s)); i < |st.entries| && st.entries[i].job == s.job
  {
    var consent := Authorize(st, ctx, s, now);
    var i := IndexOfEntry(st.entries, ScopeEffect(s));
    if consent.Err? then Some(consent.error)
    else if i == |st.entries| || st.entries[i].job != s.job || st.entries[i].sourceRevision != s.sourceRevision then Some(SourceUnavailable)
    else if TransportOf(st, s).connection(s.tenant, s.company).None? then Some(ConnectionRequired)
    else if st.entries[i].status == RateLimited && st.entries[i].retryAt.Some? && now < st.entries[i].retryAt.value then Some(TooEarly)
    else None
  }

  function Reconcile(h: Digests, st: State, ctx: Context, s: Scope, now: int): (after: (State, Result<Entry, Code>))
    requires Wired(st)
    ensures Wired(after.0)
  {
    var refusal := ReconcileRefusal(st, ctx, s, now);
    if refusal.Some? then (st, Err(refusal.value))
    else
      var i := IndexOfEntry(st.entries, ScopeEffect(s));
      var entry := Observed(h, st, s, st.entries[i]);
      (Noted(st, ctx, i, entry), Ok(entry))
  }

  // ----- the transport -----

  datatype Sent = Accepted(created: External) | Limited | Refused | Unknown

  function ExternalId(n: nat): string {
    "demo-external-" + Decimal(n)
  }

  function ObjectFor(shelf: seq<External>, reference: string, contentHash: string, target: Target, tenant: string): External {
    External(ExternalId(|shelf| + 1), tenant, reference, contentHash, false, target)
  }

  predicate Stores(mode: Mode) {
    mode == Success || mode == UnknownAfter
  }

  function Answer(mode: Mode, created: External): Sent {
    match mode
    case RateLimit => Limited
    case Reject => Refused
    case UnknownBefore => Unknown
    case UnknownAfter => Unknown
    case Success => Accepted(created)
  }

  /** One delivery attempt; only a success or a lost answer puts the object on the shelf. */
  function Send(st: State, r: Route, reference: string, contentHash: string, target: Target, tenant: string): (outcome: (State, Sent))
    requires Wired(st) && r in st.transports
    ensures Wired(outcome.0) && outcome.0.entries == st.entries
  {
    var t := st.transports[r];
    var created := ObjectFor(st.shelves[t.shelf], reference, contentHash, target, tenant);
    (st.(transports := st.transports[r := t.(next := Success, pushes := t.pushes + 1)],
         shelves := st.shelves[t.shelf := st.shelves[t.shelf] + if Stores(t.next) then [created] else []]),
     Answer(t.next, created))
  }

  const RETRY_AFTER := 30

  /** The entry after a delivery attempt. */
  function Attempted(e: Entry, sent: Sent, now: int): Entry {
    var tried := e.(attempts := e.attempts + 1);
    match sent
    case Accepted(created) => tried.(externalId := Some(created.id), status := Pushed, retryAt := None)
    case Limited => tried.(status := RateLimited, retryAt := Some(now + RETRY_AFTER))
    case Refused => tried.(status := Failed)
    case Unknown => tried.(status := OutcomeUnknown)
  }

  // ----- pushing -----

  function NewEntry(h: Digests, a: Artifact): Entry {
    Entry(a.scope.tenant, a.scope.job, a.scope.company, a.scope.sourceId, a.scope.sourceRevision, a.scope.mapping.revision,
          a.source.kind, a.source.invoiceId, a.source.pence, h.effect(ScopeEffect(a.scope)), h.artifact(a),
          Pending, None, 0, None)
  }

  predicate Replayed(st: State, k: ReplayKey, fingerprint: string) {
    k in st.commands && st.commands[k].fingerprint != fingerprint
  }

  predicate PostedElsewhere(entries: seq<Entry>, s: Scope) {
    exists e :: e in entries && e.tenant == s.tenant && e.sourceId == s.sourceId && e.company != s.company
  }

  predicate Rebound(h: Digests, st: State, a: Artifact) {
    var k := ScopeEffect(a.scope);
    k in st.artifacts &&
    var o := st.artifacts[k];
    h.binding(o.scope, o.source, o.target) != h.binding(a.scope, a.source, a.target)
  }

  /** Why a push is refused before it changes anything. */
  function PushRefusal(h: Digests, st: State, ctx: Context, c: Command, a: Artifact, now: int): Option<Code> {
    if !DecisionFits(ctx, c.decision, PushAction, h.artifact(a), now)
      || (ctx.tenant, c.decision.id) !in st.decisions
      || st.decisions[(ctx.tenant, c.decision.id)] != Confirmed(h.decision(c.decision)) then Some(ApprovalRequired)
    else if Replayed(st, CommandKey(ctx.tenant, c.id), h.command(c)) || Replayed(st, IdempotencyKey(ctx.tenant, c.idempotencyKey), h.command(c))
    then Some(ReplayConflict)
    else if Rebound(h, st, a) || PostedElsewhere(st.entries, c.scope) then Some(RefConflict)
    else None
  }

  /** Both replay keys of the command are on record. */
  function Logged(h: Digests, st: State, ctx: Context, c: Command): (r: State)
    ensures Wired(st) ==> Wired(r)
  {
    var record := CommandRecord(h.command(c), ScopeEffect(c.scope));
    st.(commands := st.commands[CommandKey(ctx.tenant, c.id) := record][IdempotencyKey(ctx.tenant, c.idempotencyKey) := record])
  }

  /** The effect has an entry and an artifact; the first ones stay. */
  function Opened(h: Digests, st: State, k: Effect, a: Artifact): (r: State)
    ensures Wired(st) ==> Wired(r)
  {
    st.(entries := if IndexOfEntry(st.entries, k) < |st.entries| then st.entries else st.entries + [NewEntry(h, a)],
        artifacts := if k in st.artifacts then st.artifacts else st.artifacts[k := a])
  }

  /** The command, its entry and its artifact are on record before anything is sent. */
  function Recorded(h: Digests, st: State, ctx: Context, c: Command, a: Artifact): (r: State)
    ensures Wired(st) ==> Wired(r)
  {
    Opened(h, Logged(h, st, ctx, c), ScopeEffect(c.scope), a)
  }

  /** The entry is sent for the first time, or again once nothing was found, and the outcome recorded. */
  function Create(h: Digests, st: State, ctx: Context, s: Scope, i: nat, target: Target, now: int): (after: (State, Result<Entry, Code>))
    requires Wired(st) && i < |st.entries|
    ensures Wired(after.0)
  {
    var e := st.entries[i];
    var (sent, answer) := Send(st, CurrentRoute(st, RouteKeyOf(s)), e.reference, e.contentHash, target, s.tenant);
    var after := Attempted(e, answer, now);
    (Noted(sent, ctx, i, after), Ok(after))
  }

  /** Always look before creating, even on the first attempt. */
  function Attempt(h: Digests, st: State, ctx: Context, s: Scope, i: nat, target: Target, now: int): (after: (State, Result<Entry, Code>))
    requires Wired(st) && i < |st.entries|
    ensures Wired(after.0)
  {
    if Find(st, TransportOf(st, s), st.entries[i].reference, s) != [] then Reconcile(h, st, ctx, s, now)
    else Create(h, st, ctx, s, i, target, now)
  }

  /** A recorded entry is delivered once its status allows it and no object is found under its reference. */
  function Deliver(h: Digests, st: State, ctx: Context, s: Scope, a: Artifact, now: int): (after: (State, Result<Entry, Code>))
    requires Wired(st) && IndexOfEntry(st.entries, ScopeEffect(s)) < |st.entries|
    ensures Wired(after.0)
  {
    var i := IndexOfEntry(st.entries, ScopeEffect(s));
    var e := st.entries[i];
    if e.status == Pushed then (st, Ok(e))
    else if e.status == RateLimited && (e.retryAt.None? || now < e.retryAt.value) then (st, Err(TooEarly))
    else
      var ready := if e.status == RateLimited then e.(status := ConfirmedAbsent) else e;
      var st1 := WithEntry(st, i, ready);
      if ready.status != Pending && ready.status != ConfirmedAbsent then (st1, Err(ReconcileRequired))
      else Attempt(h, st1, ctx, s, i, a.target, now)
  }

  function Push(h: Digests, st: State, ctx: Context, c: Command, now: int): (after: (State, Result<Entry, Code>))
    requires Wired(st)
    ensures Wired(after.0)
  {
    var preview := Preview(st, ctx, c.scope, now);
    if preview.Err? then (st, Err(preview.error))
    else
      var refusal := PushRefusal(h, st, ctx, c, preview.value, now);
      if refusal.Some? then (st, Err(refusal.value))
      else
        RecordedHasEntry(h, st, ctx, c, preview.value);
        Deliver(h, Recorded(h, st, ctx, c, preview.value), ctx, c.scope, preview.value, now)
  }

  lemma {:induction false} AppendedIndex(entries: seq<Entry>, e: Entry)
    requires IndexOfEntry(entries, EffectOf(e)) == |entries|
    ensures IndexOfEntry(entries + [e], EffectOf(e)) == |entries|
  {
    if entries == [] {
      assert entries + [e] == [e];
    } else {
      assert (entries + [e])[1..] == entries[1..] + [e];
      AppendedIndex(entries[1..], e);
    }
  }

  lemma {:induction false} RecordedHasEntry(h: Digests, st: State, ctx: Context, c: Command, a: Artifact)
    requires a.scope == c.scope
    ensures IndexOfEntry(Recorded(h, st, ctx, c, a).entries, ScopeEffect(c.scope)) < |Recorded(h, st, ctx, c, a).entries|
  {
    if IndexOfEntry(st.entries, ScopeEffect(c.scope)) == |st.entries| {
      AppendedIndex(st.entries, NewEntry(h, a));
    }
  }

  // ----- changing the route -----

  function OnRoute(s: Scope): Entry -> bool {
    (e: Entry) => e.tenant == s.tenant && e.company == s.company && e.job == s.job
  }

  /** The transport shows exactly the entry's own unedited object. */
  predicate ShowsExactly(h: Digests, st: State, t: Transport, e: Entry, s: Scope)
    requires t.shelf < |st.shelves|
  {
    var found := Find(st, t, e.reference, s);
    var artifact := ArtifactAt(st, EffectOf(e));
    && |found| == 1 && Some(found[0].id) == e.externalId && found[0].contentHash == e.contentHash
    && artifact.Some? && h.target(found[0].payload) == h.target(artifact.value.target)
  }

  /** Neither the current nor the target route may hide an edit or an absent object. */
  predicate ShownOnBoth(h: Digests, st: State, r: Route, e: Entry, s: Scope)
    requires Wired(st) && r in st.transports
  {
    ShowsExactly(h, st, TransportOf(st, s), e, s) && ShowsExactly(h, st, st.transports[r], e, s)
  }

  /** Why a route change is refused before any entry is compared; the target's connection otherwise. */
  function RouteTarget(st: State, s: Scope, r: Route): (c: Result<nat, Code>)
    requires Wired(st)
    ensures c.Ok? ==> r in st.transports && st.transports[r].connection(s.tenant, s.company) == Some(c.value)
  {
    if s.mapping.tenant != s.tenant || s.mapping.company != s.company then Err(RefConflict)
    else if (s.tenant, s.sourceId) !in st.sources
      || st.sources[(s.tenant, s.sourceId)].job != s.job || st.sources[(s.tenant, s.sourceId)].revision != s.sourceRevision
    then Err(SourceUnavailable)
    else if r !in st.transports then Err(UnsupportedMapping)
    else if st.transports[r].connection(s.tenant, s.company).None? then Err(ConnectionRequired)
    else Ok(st.transports[r].connection(s.tenant, s.company).value)
  }

  /** Why the job's entries do not allow the change. */
  function HistoryRefusal(h: Digests, st: State, s: Scope, r: Route, entries: seq<Entry>): Option<Code>
    requires Wired(st) && r in st.transports
  {
    if exists e :: e in entries && e.status != Pushed then Some(ReconcileRequired)
    else if entries != [] && TransportOf(st, s).connection(s.tenant, s.company).None? then Some(ConnectionRequired)
    else if exists e :: e in entries && !ShownOnBoth(h, st, r, e, s) then Some(ReconcileRequired)
    else None
  }

  function PreviewRoute(h: Digests, st: State, ctx: Context, s: Scope, r: Route, now: int): Result<RouteArtifact, Code>
    requires Wired(st)
  {
    var consent := Authorize(st, ctx, s, now);
    var target := RouteTarget(st, s, r);
    if consent.Err? then Err(consent.error)
    else if target.Err? then Err(target.error)
    else
      var entries := Filter(st.entries, OnRoute(s));
      var hidden := HistoryRefusal(h, st, s, r, entries);
      if hidden.Some? then Err(hidden.value)
      else Ok(RouteArtifact(s, CurrentRoute(st, RouteKeyOf(s)), r, target.value, consent.value.revision, entries))
  }

  /** Whether a decision approves the route change the preview shows now; a decision is used once. */
  function RouteApproval(h: Digests, st: State, ctx: Context, s: Scope, r: Route, d: Decision, now: int): (a: Result<RouteArtifact, Code>)
    requires Wired(st)
    ensures a.Ok? ==> r in st.transports && a.value.to == r
  {
    var preview := PreviewRoute(h, st, ctx, s, r, now);
    if preview.Err? then preview
    else if !DecisionFits(ctx, d, RouteAction, h.routeArtifact(preview.value), now) then Err(ApprovalRequired)
    else if (ctx.tenant, d.id) in st.decisions then Err(ReplayConflict)
    else preview
  }

  function Switched(h: Digests, st: State, ctx: Context, s: Scope, d: Decision, a: RouteArtifact): (after: State)
    ensures Wired(st) && a.to in st.transports ==> Wired(after)
  {
    st.(decisions := st.decisions[(ctx.tenant, d.id) := Confirmed(h.decision(d))],
        routes := st.routes[RouteKeyOf(s) := a.to],
        routeChanges := st.routeChanges + [RouteChange(s, a.from, a.to, h.routeArtifact(a), d.id)])
  }

  function ConfirmRoute(h: Digests, st: State, ctx: Context, s: Scope, r: Route, d: Decision, now: int): (after: (State, Option<Code>))
    requires Wired(st)
    ensures Wired(after.0)
  {
    var approval := RouteApproval(h, st, ctx, s, r, d, now);
    if approval.Err? then (st, Some(approval.error)) else (Switched(h, st, ctx, s, d, approval.value), None)
  }

  // ----- runs -----

  /** Everything that can happen: commands, fixture administration and changes outside the sandbox. */
  datatype Op =
    | ConfirmOp(ctx: Context, scope: Scope, decision: Decision, now: int)
    | RevokeOp(ctx: Context, decision: Decision)
    | PushOp(ctx: Context, command: Command, now: int)
    | ReconcileOp(ctx: Context, scope: Scope, now: int)
    | RouteOp(ctx: Context, scope: Scope, route: Route, decision: Decision, now: int)
    | SourceOp(source: Source)
    | ConsentOp(consent: Consent)
    | ModeOp(route: Route, mode: Mode)
    | OutsideOp(shelf: nat, objects: seq<External>)

  /** Sets how the transport answers the next delivery. */
  function SetMode(st: State, r: Route, mode: Mode): (after: State)
    requires Wired(st)
    ensures Wired(after)
  {
    if r in st.transports then st.(transports := st.transports[r := st.transports[r].(next := mode)]) else st
  }

  function Step(h: Digests, st: State, op: Op): (after: State)
    requires Wired(st)
    ensures Wired(after)
  {
    match op
    case ConfirmOp(ctx, s, d, now) => ConfirmPreview(h, st, ctx, s, d, now).0
    case RevokeOp(ctx, d) => RevokeConfirmation(h, st, ctx, d).0
    case PushOp(ctx, c, now) => Push(h, st, ctx, c, now).0
    case ReconcileOp(ctx, s, now) => Reconcile(h, st, ctx, s, now).0
    case RouteOp(ctx, s, r, d, now) => ConfirmRoute(h, st, ctx, s, r, d, now).0
    case SourceOp(source) => st.(sources := st.sources[(source.tenant, source.id) := source])
    case ConsentOp(c) => st.(consents := st.consents[(c.tenant, c.company) := c])
    case ModeOp(r, mode) => SetMode(st, r, mode)
    case OutsideOp(shelf, objects) => if shelf < |st.shelves| then st.(shelves := st.shelves[shelf := objects]) else st
  }

  function Run(h: Digests, st: State, ops: seq<Op>): (after: State)
    requires Wired(st)
    ensures Wired(after)
    decreases |ops|
  {
    if ops == [] then st
    else Run(h, Step(h, st, ops[0]), ops[1..])
  }
}
