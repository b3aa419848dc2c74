/**
 * The export sandbox and its transport as objects (apps/api/src/accounting-export.sandbox.ts,
 * accounting-export.fake.ts), each method proved to do what the specification in Accounting says.
 */
module AccountingSandbox {
  import opened Prelude
  import opened Accounting

  /** The external objects that one or more transports write to. */
  class Books {
    var objects: seq<External>

    constructor (imported: seq<External>)
      ensures objects == imported
    {
      objects := imported;
    }
  }

  class FakeAccountingTransport {
    const route: Route
    const books: Books
    const connection: (string, string) -> Option<nat>
    var next: Mode
    var pushes: nat

    constructor (route: Route, books: Books, connection: (string, string) -> Option<nat>)
      ensures this.route == route && this.books == books && this.connection == connection
      ensures next == Success && pushes == 0
    {
      this.route, this.books, this.connection := route, books, connection;
      next, pushes := Success, 0;
    }

    /** Why a delivery is refused before it is counted. */
    function PushRefusal(payload: Target, tenant: string, company: string): Option<Code> {
      if connection(tenant, company).None? then Some(ConnectionRequired)
      else if payload.company != company then Some(RefConflict) else None
    }

    method Send(reference: string, contentHash: string, payload: Target, tenant: string, company: string) returns (r: Result<Sent, Code>)
      modifies this, books
      ensures r.Err? <==> PushRefusal(payload, tenant, company).Some?
      ensures r.Err? ==> r.error == PushRefusal(payload, tenant, company).value && unchanged(this) && unchanged(books)
      ensures r.Ok? ==> next == Success && pushes == old(pushes) + 1
      ensures r.Ok? ==>
                books.objects == old(books.objects)
                                 + if Stores(old(next)) then [ObjectFor(old(books.objects), reference, contentHash, payload, tenant)] else []
      ensures r.Ok? ==> r.value == Answer(old(next), ObjectFor(old(books.objects), reference, contentHash, payload, tenant))
    {
      if connection(tenant, company).None? { return Err(ConnectionRequired); }
      if payload.company != company { return Err(RefConflict); }
      pushes := pushes + 1;
      var mode := next;
      next := Success;
      if mode == RateLimit { return Ok(Limited); }
      if mode == Reject { return Ok(Refused); }
      if mode == UnknownBefore { return Ok(Unknown); }
      var created := External(ExternalId(|books.objects| + 1), tenant, reference, contentHash, false, payload);
      books.objects := books.objects + [created];
      if mode == UnknownAfter { return Ok(Unknown); }
      return Ok(Accepted(created));
    }

    method Lookup(reference: string, tenant: string, company: string) returns (r: Result<seq<External>, Code>)
      ensures r == if connection(tenant, company).None? then Err(ConnectionRequired)
                   else Ok(Filter(books.objects, Matching(tenant, company, reference)))
    {
      if connection(tenant, company).None? { return Err(ConnectionRequired); }
      var found: seq<External> := [];
      for i := 0 to |books.objects|
        invariant found == Filter(books.objects[..i], Matching(tenant, company, reference))
      {
        var o := books.objects[i];
        assert books.objects[..i + 1] == books.objects[..i] + [o] && [o][1..] == [];
        FilterAppend(books.objects[..i], [o], Matching(tenant, company, reference));
        if o.tenant == tenant && o.payload.company == company && o.reference == reference {
          found := found + [o];
        }
      }
      assert books.objects[..|books.objects|] == books.objects;
      return Ok(found);
    }
  }

  ghost function Objects(shelves: seq<Books>): (r: seq<seq<External>>)
    reads shelves
    ensures |r| == |shelves| && forall n :: 0 <= n < |shelves| ==> r[n] == shelves[n].objects
  {
    seq(|shelves|, n requires 0 <= n < |shelves| reads shelves => shelves[n].objects)
  }

  /** Every transport is filed under its route and writes to a known shelf; shelves differ. */
  ghost predicate Shelved(adapters: map<Route, FakeAccountingTransport>, shelves: seq<Books>, shelfAt: map<Route, nat>) {
    && Distinct(shelves)
    && forall r :: r in adapters ==>
         adapters[r].route == r && r in shelfAt && shelfAt[r] < |shelves| && shelves[shelfAt[r]] == adapters[r].books
  }

  /** The state describes each shelf as it is. */
  ghost predicate Shows(objects: seq<seq<External>>, shelves: seq<Books>)
    reads shelves
  {
    |objects| == |shelves| && forall n :: 0 <= n < |shelves| ==> objects[n] == shelves[n].objects
  }

  /** The state describes each transport as it is. */
  ghost predicate Connected(wires: map<Route, Transport>, adapters: map<Route, FakeAccountingTransport>, shelfAt: map<Route, nat>)
    requires forall r :: r in adapters ==> r in shelfAt
    reads adapters.Values
  {
    && (forall r :: r in adapters <==> r in wires)
    && forall r :: r in adapters ==>
         wires[r] == Transport(shelfAt[r], adapters[r].next, adapters[r].pushes, adapters[r].connection)
  }

  ghost function Wires(adapters: map<Route, FakeAccountingTransport>, shelfAt: map<Route, nat>): map<Route, Transport>
    requires forall r :: r in adapters ==> r in shelfAt
    reads adapters.Values
  {
    map r | r in adapters :: Transport(shelfAt[r], adapters[r].next, adapters[r].pushes, adapters[r].connection)
  }

  lemma PreviewScope(st: State, ctx: Context, s: Scope, now: int)
    requires Wired(st) && Preview(st, ctx, s, now).Ok?
    ensures Preview(st, ctx, s, now).value.scope == s && Preview(st, ctx, s, now).value.target.company == s.company
    ensures TransportOf(st, s).connection(s.tenant, s.company).Some?
  {
  }

  lemma Rewired(wires: map<Route, Transport>, adapters: map<Route, FakeAccountingTransport>, shelfAt: map<Route, nat>,
                transport: FakeAccountingTransport)
    requires transport.route in adapters && adapters[transport.route] == transport
    requires forall r :: r in adapters ==> r in shelfAt && adapters[r].route == r
    requires forall r :: r in adapters <==> r in wires
    requires forall r :: r in adapters && r != transport.route ==>
               wires[r] == Transport(shelfAt[r], adapters[r].next, adapters[r].pushes, adapters[r].connection)
    ensures Connected(wires[transport.route := Transport(shelfAt[transport.route], transport.next, transport.pushes, transport.connection)],
                      adapters, shelfAt)
  {
  }

  lemma Reshelved(objects: seq<seq<External>>, shelves: seq<Books>, n: nat)
    requires n < |objects| == |shelves|
    requires forall m :: 0 <= m < |shelves| && m != n ==> objects[m] == shelves[m].objects
    ensures Shows(objects[n := shelves[n].objects], shelves)
  {
  }

  /** What a delivery leaves of the state: one transport and its shelf change. */
  lemma SentState(st: State, r: Route, reference: string, contentHash: string, target: Target, tenant: string)
    requires Wired(st) && r in st.transports
    ensures var after, t := Send(st, r, reference, contentHash, target, tenant).0, st.transports[r];
            after == st.(transports := st.transports[r := Transport(t.shelf, Success, t.pushes + 1, t.connection)],
                         shelves := st.shelves[t.shelf := st.shelves[t.shelf] +
                           if Stores(t.next) then [ObjectFor(st.shelves[t.shelf], reference, contentHash, target, tenant)] else []])
  {
  }

  lemma RecordedReady(h: Digests, st: State, ctx: Context, c: Command, a: Artifact)
    requires Wired(st) && a.scope == c.scope
    ensures var mid := Recorded(h, st, ctx, c, a);
            IndexOfEntry(mid.entries, ScopeEffect(c.scope)) < |mid.entries| && Wired(mid) && TransportOf(mid, c.scope) == TransportOf(st, c.scope)
  {
    RecordedHasEntry(h, st, ctx, c, a);
  }

  lemma WiredReroute(st: State, k: RouteKey, r: Route)
    requires Wired(st) && r in st.transports
    ensures Wired(st.(routes := st.routes[k := r]))
  {
  }

  class AccountingExportSandbox {
    const h: Digests
    const enabled: bool
    const adapter: FakeAccountingTransport
    const adapters: map<Route, FakeAccountingTransport>
    var sources: map<(string, string), Source>
    var consents: map<(string, string), Consent>
    var entries: seq<Entry>
    var artifacts: map<Effect, Artifact>
    var commands: map<ReplayKey, CommandRecord>
    var decisions: map<(string, string), DecisionMark>
    var audit: seq<AuditEvent>
    var routes: map<RouteKey, Route>
    var routeChanges: seq<RouteChange>
    ghost const shelves: seq<Books>
    ghost const shelfAt: map<Route, nat>

    constructor (h: Digests, enabled: bool, adapter: FakeAccountingTransport, adapters: map<Route, FakeAccountingTransport>,
                 ghost shelves: seq<Books>, ghost shelfAt: map<Route, nat>)
      requires adapter.route in adapters && adapters[adapter.route] == adapter && Shelved(adapters, shelves, shelfAt)
      ensures Valid() && this.h == h && this.adapter == adapter && this.adapters == adapters && this.shelves == shelves
      ensures state == Accounting.State(enabled, adapter.route, map[], map[], [], map[], map[], map[], [], map[], [],
                                          Wires(adapters, shelfAt), Objects(shelves))
    {
      this.h, this.enabled, this.adapter, this.adapters := h, enabled, adapter, adapters;
      this.shelves, this.shelfAt := shelves, shelfAt;
      sources, consents, entries, artifacts := map[], map[], [], map[];
      commands, decisions, audit, routes, routeChanges := map[], map[], [], map[], [];
      state := Accounting.State(enabled, adapter.route, map[], map[], [], map[], map[], map[], [], map[], [],
                                Wires(adapters, shelfAt), Objects(shelves));
    }

    /** The state the specification speaks about, kept beside the fields. */
    ghost var state: State

    ghost predicate Valid()
      reads this, adapters.Values, shelves
    {
      && adapter.route in adapters && adapters[adapter.route] == adapter && Shelved(adapters, shelves, shelfAt)
      && (forall k :: k in routes ==> routes[k] in adapters)
      && Wired(state) && FieldsAgree() && Connected(state.transports, adapters, shelfAt) && Shows(state.shelves, shelves)
    }

    ghost predicate FieldsAgree()
      reads this
    {
      && state.enabled == enabled && state.defaultRoute == adapter.route
      && state.sources == sources && state.consents == consents && state.entries == entries && state.artifacts == artifacts
      && state.commands == commands && state.decisions == decisions && state.audit == audit
      && state.routes == routes && state.routeChanges == routeChanges
    }

    method TransportFor(s: Scope) returns (t: FakeAccountingTransport)
      requires Valid()
      ensures t.route == CurrentRoute(state, RouteKeyOf(s)) && t.route in adapters && t == adapters[t.route]
    {
      var k := RouteKey(s.tenant, s.company, s.job);
      t := if k in routes then adapters[routes[k]] else adapter;
    }

    method FindEntry(k: Effect) returns (i: nat)
      ensures i == IndexOfEntry(entries, k)
    {
      i := 0;
      while i < |entries| && EffectOf(entries[i]) != k
        invariant i <= |entries|
        invariant forall j :: 0 <= j < i ==> EffectOf(entries[j]) != k
      {
        i := i + 1;
      }
    }

    method Authorized(ctx: Context, s: Scope, now: int) returns (r: Result<Consent, Code>)
      requires Valid()
      ensures r == Authorize(state, ctx, s, now)
    {
      if !enabled { return Err(Disabled); }
      if !SafeInteger(now) { return Err(InvalidInput); }
      if !ctx.canExport || ctx.tenant != s.tenant || !DemoId(ctx.actor) { return Err(Forbidden); }
      var k := (s.tenant, s.company);
      if k !in consents { return Err(ConsentExpired); }
      var consent := consents[k];
      if consent.revoked || consent.expiresAt <= now { return Err(ConsentExpired); }
      return Ok(consent);
    }

    method FamilyTaken(s: Scope, source: Source) returns (taken: bool)
      ensures taken <==> exists k :: k in artifacts && BoundElsewhere(artifacts[k], source, s)
    {
      var left := artifacts.Keys;
      while left != {}
        invariant left <= artifacts.Keys
        invariant forall k :: k in artifacts && k !in left ==> !BoundElsewhere(artifacts[k], source, s)
        decreases left
      {
        var k :| k in left;
        if BoundElsewhere(artifacts[k], source, s) { return true; }
        left := left - {k};
      }
      return false;
    }

    method Allocated(s: Scope, source: Source) returns (total: int)
      ensures total == ReservedByOthers(entries, s, source)
    {
      total := 0;
      var against := Against(s.tenant, source.invoiceId);
      var notOwn := NotOwn(s.company, source.id);
      for i := 0 to |entries|
        invariant total == SumBy(Filter(Filter(entries[..i], against), notOwn), EntryPence())
      {
        var e := entries[i];
        assert entries[..i + 1] == entries[..i] + [e] && [e][1..] == [];
        FilterAppend(entries[..i], [e], against);
        FilterAppend(Filter(entries[..i], against), Filter([e], against), notOwn);
        SumByAppend(Filter(Filter(entries[..i], against), notOwn), Filter(Filter([e], against), notOwn), EntryPence());
        if e.tenant == s.tenant && e.invoiceId == source.invoiceId && !(e.company == s.company && e.sourceId == source.id) {
          total := total + e.pence;
        }
      }
      assert entries[..|entries|] == entries;
    }

    method InvoiceAdmits(s: Scope, source: Source) returns (fits: bool)
      requires Valid()
      ensures fits == InvoiceFits(state, s, source)
    {
      if source.invoiceId.None? { return true; }
      if (s.tenant, source.invoiceId.value) !in sources { return false; }
      var invoice := sources[(s.tenant, source.invoiceId.value)];
      if Some(invoice.revision) != source.invoiceRevision || FinalMismatch(invoice) || invoice.job != s.job
        || invoice.kind != CustomerInvoice || invoice.state != Issued || source.pence > invoice.pence { return false; }
      var reserved := Allocated(s, source);
      return reserved + source.pence <= invoice.pence;
    }

    method Draft(s: Scope, route: Route, connection: nat, consentRevision: int) returns (r: Result<Artifact, Code>)
      requires Valid()
      ensures r == Drafted(state, s, route, connection, consentRevision)
    {
      if (s.tenant, s.sourceId) !in sources { return Err(SourceUnavailable); }
      var source := sources[(s.tenant, s.sourceId)];
      if source.job != s.job || source.revision != s.sourceRevision
        || (if source.kind == CustomerInvoice then source.state != Issued else source.state != Posted) { return Err(SourceUnavailable); }
      if FinalMismatch(source) { return Err(SourceUnavailable); }
      if !InvoiceLinkShape(source) { return Err(RefConflict); }
      var taken := FamilyTaken(s, source);
      if taken { return Err(RefConflict); }
      var fits := InvoiceAdmits(s, source);
      if !fits { return Err(RefConflict); }
      if source.tax != s.mapping.tax || ((route == Xero || route == QuickBooks) && source.tax == Unsupported) {
        return Err(UnsupportedMapping);
      }
      return Ok(Artifact(route, connection, s, source, consentRevision, TargetOf(s, source)));
    }

    method PreviewExport(ctx: Context, s: Scope, now: int) returns (r: Result<Artifact, Code>)
      requires Valid()
      ensures r == Preview(state, ctx, s, now)
    {
      var consent := Authorized(ctx, s, now);
      if consent.Err? { return Err(consent.error); }
      if s.mapping.tenant != s.tenant || s.mapping.company != s.company { return Err(RefConflict); }
      var transport := TransportFor(s);
      var connection := transport.connection(s.tenant, s.company);
      if connection.None? { return Err(ConnectionRequired); }
      r := Draft(s, transport.route, connection.value, consent.value.revision);
    }

    method Approved(ctx: Context, s: Scope, d: Decision, now: int) returns (refusal: Option<Code>)
      requires Valid()
      ensures refusal == Approval(h, state, ctx, s, d, now)
    {
      var preview := PreviewExport(ctx, s, now);
      if preview.Err? { return Some(preview.error); }
      if !DecisionFits(ctx, d, PushAction, h.artifact(preview.value), now) { return Some(ApprovalRequired); }
      var k := (ctx.tenant, d.id);
      if k in decisions && decisions[k] != Confirmed(h.decision(d)) { return Some(ReplayConflict); }
      return None;
    }

    method Decide(k: (string, string), mark: DecisionMark)
      requires Valid()
      modifies `decisions, `state
      ensures Valid() && state == old(state).(decisions := old(decisions)[k := mark])
    {
      decisions := decisions[k := mark];
      state := state.(decisions := decisions);
    }

    method Confirm(ctx: Context, s: Scope, d: Decision, now: int) returns (r: Result<Decision, Code>)
      requires Valid()
      modifies this
      ensures Valid() && state == ConfirmPreview(h, old(state), ctx, s, d, now).0
      ensures r == ConfirmPreview(h, old(state), ctx, s, d, now).1
    {
      var refusal := Approved(ctx, s, d, now);
      if refusal.Some? { return Err(refusal.value); }
      Decide((ctx.tenant, d.id), Confirmed(h.decision(d)));
      return Ok(d);
    }

    method Revoke(ctx: Context, d: Decision) returns (r: Option<Code>)
      requires Valid()
      modifies this
      ensures Valid() && state == RevokeConfirmation(h, old(state), ctx, d).0
      ensures r == RevokeConfirmation(h, old(state), ctx, d).1
    {
      if !enabled { return Some(Disabled); }
      if !ctx.canExport || d.tenant != ctx.tenant || d.actor != ctx.actor { return Some(Forbidden); }
      var k := (ctx.tenant, d.id);
      if k !in decisions || decisions[k] != Confirmed(h.decision(d)) { return Some(ApprovalRequired); }
      Decide(k, DecisionMark.Revoked);
      return None;
    }

    method Classify(e: Entry, found: seq<External>) returns (entry: Entry)
      ensures entry == Classified(h, e, if EffectOf(e) in artifacts then Some(artifacts[EffectOf(e)]) else None, found)
    {
      entry := e;
      if |found| > 1 {
        entry := entry.(status := DuplicateImport);
      } else if |found| == 0 {
        entry := entry.(status := if entry.externalId.Some? then ReferenceConflict else ConfirmedAbsent);
      } else if entry.externalId.Some? && entry.externalId.value != found[0].id {
        entry := entry.(status := ReferenceConflict);
      } else if entry.contentHash != found[0].contentHash || EffectOf(e) !in artifacts
        || h.target(artifacts[EffectOf(e)].target) != h.target(found[0].payload) {
        entry := entry.(status := ExternalEdit);
      } else {
        entry := entry.(externalId := Some(found[0].id), status := Pushed, retryAt := None);
      }
    }

    method Observe(s: Scope, e: Entry) returns (entry: Entry)
      requires Valid() && TransportOf(state, s).connection(s.tenant, s.company).Some?
      ensures entry == Observed(h, state, s, e)
    {
      var transport := TransportFor(s);
      var found := transport.Lookup(e.reference, s.tenant, s.company);
      entry := Classify(e, found.value);
    }

    method Note(ctx: Context, i: nat, entry: Entry)
      requires Valid() && i < |entries|
      modifies `entries, `audit, `state
      ensures Valid() && state == Noted(old(state), ctx, i, entry)
    {
      entries, audit := entries[i := entry], audit + [AuditEvent(ctx.tenant, entry.reference, entry.status)];
      state := Noted(state, ctx, i, entry);
    }

    method Reconcilable(ctx: Context, s: Scope, now: int) returns (refusal: Option<Code>)
      requires Valid()
      ensures refusal == ReconcileRefusal(state, ctx, s, now)
    {
      var consent := Authorized(ctx, s, now);
      if consent.Err? { return Some(consent.error); }
      var i := FindEntry(ScopeEffect(s));
      if i == |entries| || entries[i].job != s.job || entries[i].sourceRevision != s.sourceRevision { return Some(SourceUnavailable); }
      var transport := TransportFor(s);
      if transport.connection(s.tenant, s.company).None? { return Some(ConnectionRequired); }
      if entries[i].status == RateLimited && entries[i].retryAt.Some? && now < entries[i].retryAt.value { return Some(TooEarly); }
      return None;
    }

    method ReconcileEntry(ctx: Context, s: Scope, now: int) returns (r: Result<Entry, Code>)
      requires Valid()
      modifies this
      ensures Valid() && state == Reconcile(h, old(state), ctx, s, now).0
      ensures r == Reconcile(h, old(state), ctx, s, now).1
    {
      var refusal := Reconcilable(ctx, s, now);
      if refusal.Some? { return Err(refusal.value); }
      var i := FindEntry(ScopeEffect(s));
      var entry := Observe(s, entries[i]);
      Note(ctx, i, entry);
      return Ok(entry);
    }

    /** One delivery through a transport, which leaves it and its shelf as the specification says. */
    method Transmit(transport: FakeAccountingTransport, reference: string, contentHash: string, target: Target, tenant: string)
      returns (sent: Sent)
      requires Valid() && transport.route in adapters && adapters[transport.route] == transport
      requires transport.connection(tenant, target.company).Some?
      modifies transport, transport.books
      ensures var (after, answer) := Send(state, transport.route, reference, contentHash, target, tenant);
              sent == answer && Connected(after.transports, adapters, shelfAt) && Shows(after.shelves, shelves)
    {
      var answer := transport.Send(reference, contentHash, target, tenant, target.company);
      sent := answer.value;
      SentState(state, transport.route, reference, contentHash, target, tenant);
      Rewired(state.transports, adapters, shelfAt, transport);
      Reshelved(state.shelves, shelves, shelfAt[transport.route]);
    }

    method Dispatch(transport: FakeAccountingTransport, reference: string, contentHash: string, target: Target, tenant: string)
      returns (sent: Sent)
      requires Valid() && transport.route in adapters && adapters[transport.route] == transport
      requires transport.connection(tenant, target.company).Some?
      modifies `state, transport, transport.books
      ensures Valid() && state == Send(old(state), transport.route, reference, contentHash, target, tenant).0
      ensures sent == Send(old(state), transport.route, reference, contentHash, target, tenant).1
    {
      sent := Transmit(transport, reference, contentHash, target, tenant);
      state := Send(state, transport.route, reference, contentHash, target, tenant).0;
      assert FieldsAgree();
    }

    method Tried(e: Entry, sent: Sent, now: int) returns (entry: Entry)
      ensures entry == Attempted(e, sent, now)
    {
      entry := e.(attempts := e.attempts + 1);
      match sent {
        case Accepted(created) => entry := entry.(externalId := Some(created.id), status := Pushed, retryAt := None);
        case Limited => entry := entry.(status := RateLimited, retryAt := Some(now + RETRY_AFTER));
        case Refused => entry := entry.(status := Failed);
        case Unknown => entry := entry.(status := OutcomeUnknown);
      }
    }

    method Try(ctx: Context, s: Scope, i: nat, target: Target, now: int) returns (r: Result<Entry, Code>)
      requires Valid() && i < |entries| && target.company == s.company && TransportOf(state, s).connection(s.tenant, s.company).Some?
      modifies this, adapters.Values, shelves
      ensures Valid() && state == Create(h, old(state), ctx, s, i, target, now).0
      ensures r == Create(h, old(state), ctx, s, i, target, now).1
    {
      var transport := TransportFor(s);
      var sent := Dispatch(transport, entries[i].reference, entries[i].contentHash, target, s.tenant);
      var entry := Tried(entries[i], sent, now);
      Note(ctx, i, entry);
      return Ok(entry);
    }

    method Attempting(ctx: Context, s: Scope, i: nat, target: Target, now: int) returns (r: Result<Entry, Code>)
      requires Valid() && i < |entries| && target.company == s.company && TransportOf(state, s).connection(s.tenant, s.company).Some?
      modifies this, adapters.Values, shelves
      ensures Valid() && state == Attempt(h, old(state), ctx, s, i, target, now).0
      ensures r == Attempt(h, old(state), ctx, s, i, target, now).1
    {
      var transport := TransportFor(s);
      var found := transport.Lookup(entries[i].reference, s.tenant, s.company);
      if |found.value| > 0 {
        r := ReconcileEntry(ctx, s, now);
      } else {
        r := Try(ctx, s, i, target, now);
      }
    }

    method Delivering(ctx: Context, s: Scope, a: Artifact, now: int) returns (r: Result<Entry, Code>)
      requires Valid() && IndexOfEntry(entries, ScopeEffect(s)) < |entries|
      requires a.target.company == s.company && TransportOf(state, s).connection(s.tenant, s.company).Some?
      modifies this, adapters.Values, shelves
      ensures Valid() && state == Deliver(h, old(state), ctx, s, a, now).0
      ensures r == Deliver(h, old(state), ctx, s, a, now).1
    {
      var i := FindEntry(ScopeEffect(s));
      var entry := entries[i];
      if entry.status == Pushed { return Ok(entry); }
      if entry.status == RateLimited {
        if entry.retryAt.None? || now < entry.retryAt.value { return Err(TooEarly); }
        entry := entry.(status := ConfirmedAbsent);
      }
      Store(i, entry);
      if entry.status != Pending && entry.status != ConfirmedAbsent { return Err(ReconcileRequired); }
      r := Attempting(ctx, s, i, a.target, now);
    }

    method Store(i: nat, entry: Entry)
      requires Valid() && i < |entries|
      modifies `entries, `state
      ensures Valid() && state == WithEntry(old(state), i, entry)
    {
      entries := entries[i := entry];
      state := WithEntry(state, i, entry);
    }

    method FoundElsewhere(s: Scope) returns (elsewhere: bool)
      ensures elsewhere == PostedElsewhere(entries, s)
    {
      for i := 0 to |entries|
        invariant forall j :: 0 <= j < i ==>
                    !(entries[j].tenant == s.tenant && entries[j].sourceId == s.sourceId && entries[j].company != s.company)
      {
        var e := entries[i];
        if e.tenant == s.tenant && e.sourceId == s.sourceId && e.company != s.company { return true; }
      }
      return false;
    }

    method PushRefused(ctx: Context, c: Command, a: Artifact, now: int) returns (refusal: Option<Code>)
      requires Valid()
      ensures refusal == PushRefusal(h, state, ctx, c, a, now)
    {
      if !DecisionFits(ctx, c.decision, PushAction, h.artifact(a), now)
        || (ctx.tenant, c.decision.id) !in decisions
        || decisions[(ctx.tenant, c.decision.id)] != Confirmed(h.decision(c.decision)) { return Some(ApprovalRequired); }
      var fingerprint := h.command(c);
      var keys := [CommandKey(ctx.tenant, c.id), IdempotencyKey(ctx.tenant, c.idempotencyKey)];
      for n := 0 to |keys|
        invariant forall m :: 0 <= m < n ==> !Replayed(state, keys[m], fingerprint)
      {
        if keys[n] in commands && commands[keys[n]].fingerprint != fingerprint { return Some(ReplayConflict); }
      }
      assert !Replayed(state, keys[0], fingerprint) && !Replayed(state, keys[1], fingerprint);
      var k := ScopeEffect(a.scope);
      if k in artifacts && h.binding(artifacts[k].scope, artifacts[k].source, artifacts[k].target) != h.binding(a.scope, a.source, a.target) {
        return Some(RefConflict);
      }
      var elsewhere := FoundElsewhere(c.scope);
      return if elsewhere then Some(RefConflict) else None;
    }

    method AddEntry(e: Entry)
      requires Valid()
      modifies `entries, `state
      ensures Valid() && state == old(state).(entries := old(entries) + [e])
    {
      entries := entries + [e];
      state := state.(entries := entries);
    }

    method File(k: Effect, a: Artifact)
      requires Valid()
      modifies `artifacts, `state
      ensures Valid() && state == old(state).(artifacts := old(artifacts)[k := a])
    {
      artifacts := artifacts[k := a];
      state := state.(artifacts := artifacts);
    }

    method Open(k: Effect, a: Artifact)
      requires Valid()
      modifies `entries, `artifacts, `state
      ensures Valid() && state == Opened(h, old(state), k, a)
    {
      var i := FindEntry(k);
      if i == |entries| {
        AddEntry(NewEntry(h, a));
      }
      if k !in artifacts {
        File(k, a);
      }
    }

    method LogCommand(ctx: Context, c: Command)
      requires Valid()
      modifies `commands, `state
      ensures Valid() && state == Logged(h, old(state), ctx, c)
    {
      var record := CommandRecord(h.command(c), ScopeEffect(c.scope));
      commands := commands[CommandKey(ctx.tenant, c.id) := record][IdempotencyKey(ctx.tenant, c.idempotencyKey) := record];
      state := state.(commands := commands);
    }

    method Record(ctx: Context, c: Command, a: Artifact)
      requires Valid()
      modifies `entries, `artifacts, `commands, `state
      ensures Valid() && state == Recorded(h, old(state), ctx, c, a)
    {
      LogCommand(ctx, c);
      Open(ScopeEffect(c.scope), a);
    }

    method PushCommand(ctx: Context, c: Command, now: int) returns (r: Result<Entry, Code>)
      requires Valid()
      modifies this, adapters.Values, shelves
      ensures Valid() && state == Push(h, old(state), ctx, c, now).0
      ensures r == Push(h, old(state), ctx, c, now).1
    {
      var preview := PreviewExport(ctx, c.scope, now);
      if preview.Err? { return Err(preview.error); }
      var refusal := PushRefused(ctx, c, preview.value, now);
      if refusal.Some? { return Err(refusal.value); }
      PreviewScope(state, ctx, c.scope, now);
      RecordedReady(h, state, ctx, c, preview.value);
      Record(ctx, c, preview.value);
      r := Delivering(ctx, c.scope, preview.value, now);
    }

    method JobEntries(s: Scope) returns (found: seq<Entry>)
      ensures found == Filter(entries, OnRoute(s))
    {
      found := [];
      for i := 0 to |entries|
        invariant found == Filter(entries[..i], OnRoute(s))
      {
        var e := entries[i];
        assert entries[..i + 1] == entries[..i] + [e] && [e][1..] == [];
        FilterAppend(entries[..i], [e], OnRoute(s));
        if e.tenant == s.tenant && e.company == s.company && e.job == s.job {
          found := found + [e];
        }
      }
      assert entries[..|entries|] == entries;
    }

    /** Whether a transport shows exactly the entry's own unedited object. */
    method Matches(transport: FakeAccountingTransport, e: Entry, s: Scope) returns (same: bool)
      requires Valid() && transport.route in adapters && adapters[transport.route] == transport
      requires transport.connection(s.tenant, s.company).Some?
      ensures same == ShowsExactly(h, state, state.transports[transport.route], e, s)
    {
      var shown := transport.Lookup(e.reference, s.tenant, s.company);
      var found := shown.value;
      return |found| == 1 && Some(found[0].id) == e.externalId && found[0].contentHash == e.contentHash
             && EffectOf(e) in artifacts && h.target(found[0].payload) == h.target(artifacts[EffectOf(e)].target);
    }

    method MatchesBoth(current: FakeAccountingTransport, target: FakeAccountingTransport, e: Entry, s: Scope) returns (same: bool)
      requires Valid() && target.route in adapters && adapters[target.route] == target && target.connection(s.tenant, s.company).Some?
      requires current.route == CurrentRoute(state, RouteKeyOf(s)) && current.route in adapters && adapters[current.route] == current
      requires current.connection(s.tenant, s.company).Some?
      ensures same == ShownOnBoth(h, state, target.route, e, s)
    {
      same := Matches(current, e, s);
      if same { same := Matches(target, e, s); }
    }

    method BothShow(target: FakeAccountingTransport, jobEntries: seq<Entry>, s: Scope) returns (same: bool)
      requires Valid() && target.route in adapters && adapters[target.route] == target && target.connection(s.tenant, s.company).Some?
      requires jobEntries != [] ==> TransportOf(state, s).connection(s.tenant, s.company).Some?
      ensures same <==> forall e :: e in jobEntries ==> ShownOnBoth(h, state, target.route, e, s)
    {
      var current := TransportFor(s);
      for i := 0 to |jobEntries|
        invariant forall j :: 0 <= j < i ==> ShownOnBoth(h, state, target.route, jobEntries[j], s)
      {
        assert jobEntries[i] in jobEntries;
        var shown := MatchesBoth(current, target, jobEntries[i], s);
        if !shown { return false; }
      }
      return true;
    }

    method FindTarget(s: Scope, r: Route) returns (target: Result<nat, Code>)
      requires Valid()
      ensures target == RouteTarget(state, s, r)
    {
      if s.mapping.tenant != s.tenant || s.mapping.company != s.company { return Err(RefConflict); }
      if (s.tenant, s.sourceId) !in sources { return Err(SourceUnavailable); }
      var source := sources[(s.tenant, s.sourceId)];
      if source.job != s.job || source.revision != s.sourceRevision { return Err(SourceUnavailable); }
      if r !in adapters { return Err(UnsupportedMapping); }
      var connection := adapters[r].connection(s.tenant, s.company);
      if connection.None? { return Err(ConnectionRequired); }
      return Ok(connection.value);
    }

    method HistoryAllows(target: FakeAccountingTransport, jobEntries: seq<Entry>, s: Scope) returns (refusal: Option<Code>)
      requires Valid() && target.route in adapters && adapters[target.route] == target && target.connection(s.tenant, s.company).Some?
      ensures refusal == HistoryRefusal(h, state, s, target.route, jobEntries)
    {
      for i := 0 to |jobEntries|
        invariant forall j :: 0 <= j < i ==> jobEntries[j].status == Pushed
      {
        if jobEntries[i].status != Pushed {
          assert jobEntries[i] in jobEntries;
          return Some(ReconcileRequired);
        }
      }
      var current := TransportFor(s);
      if jobEntries != [] && current.connection(s.tenant, s.company).None? { return Some(ConnectionRequired); }
      var same := BothShow(target, jobEntries, s);
      return if same then None else Some(ReconcileRequired);
    }

    method PreviewRouteChange(ctx: Context, s: Scope, r: Route, now: int) returns (preview: Result<RouteArtifact, Code>)
      requires Valid()
      ensures preview == PreviewRoute(h, state, ctx, s, r, now)
    {
      var consent := Authorized(ctx, s, now);
      if consent.Err? { return Err(consent.error); }
      var target := FindTarget(s, r);
      if target.Err? { return Err(target.error); }
      var jobEntries := JobEntries(s);
      var hidden := HistoryAllows(adapters[r], jobEntries, s);
      if hidden.Some? { return Err(hidden.value); }
      var current := TransportFor(s);
      return Ok(RouteArtifact(s, current.route, r, target.value, consent.value.revision, jobEntries));
    }

    method RouteApproved(ctx: Context, s: Scope, r: Route, d: Decision, now: int) returns (approval: Result<RouteArtifact, Code>)
      requires Valid()
      ensures approval == RouteApproval(h, state, ctx, s, r, d, now)
    {
      var preview := PreviewRouteChange(ctx, s, r, now);
      if preview.Err? { return preview; }
      if !DecisionFits(ctx, d, RouteAction, h.routeArtifact(preview.value), now) { return Err(ApprovalRequired); }
      if (ctx.tenant, d.id) in decisions { return Err(ReplayConflict); }
      return preview;
    }

    method ConfirmRouteChange(ctx: Context, s: Scope, r: Route, d: Decision, now: int) returns (refusal: Option<Code>)
      requires Valid()
      modifies this
      ensures Valid() && state == ConfirmRoute(h, old(state), ctx, s, r, d, now).0
      ensures refusal == ConfirmRoute(h, old(state), ctx, s, r, d, now).1
    {
      var approval := RouteApproved(ctx, s, r, d, now);
      if approval.Err? { return Some(approval.error); }
      Switch(ctx, s, d, approval.value);
      return None;
    }

    method Reroute(k: RouteKey, r: Route)
      requires Valid() && r in adapters
      modifies `routes, `state
      ensures Valid() && state == old(state).(routes := old(routes)[k := r])
    {
      WiredReroute(state, k, r);
      routes := routes[k := r];
      state := state.(routes := routes);
    }

    method LogRouteChange(change: RouteChange)
      requires Valid()
      modifies `routeChanges, `state
      ensures Valid() && state == old(state).(routeChanges := old(routeChanges) + [change])
    {
      routeChanges := routeChanges + [change];
      state := state.(routeChanges := routeChanges);
    }

    method Switch(ctx: Context, s: Scope, d: Decision, a: RouteArtifact)
      requires Valid() && a.to in adapters
      modifies `decisions, `routes, `routeChanges, `state
      ensures Valid() && state == Switched(h, old(state), ctx, s, d, a)
    {
      Decide((ctx.tenant, d.id), Confirmed(h.decision(d)));
      Reroute(RouteKeyOf(s), a.to);
      LogRouteChange(RouteChange(s, a.from, a.to, h.routeArtifact(a), d.id));
    }

    method SetSyntheticSource(source: Source)
      requires Valid()
      modifies `sources, `state
      ensures Valid() && state == old(state).(sources := old(sources)[(source.tenant, source.id) := source])
    {
      sources := sources[(source.tenant, source.id) := source];
      state := state.(sources := sources);
    }

    method SetSyntheticConsent(consent: Consent)
      requires Valid()
      modifies `consents, `state
      ensures Valid() && state == old(state).(consents := old(consents)[(consent.tenant, consent.company) := consent])
    {
      consents := consents[(consent.tenant, consent.company) := consent];
      state := state.(consents := consents);
    }

    method AddSources(given: seq<Source>)
      requires Valid() && SourcesKeyed(state)
      modifies `sources, `state
      ensures Valid() && SourcesKeyed(state) && state == old(state).(sources := state.sources)
    {
      for i := 0 to |given|
        invariant Valid() && SourcesKeyed(state) && state == old(state).(sources := state.sources)
      {
        SetSyntheticSource(given[i]);
      }
    }

    method AddConsents(given: seq<Consent>)
      requires Valid()
      modifies `consents, `state
      ensures Valid() && state == old(state).(consents := state.consents)
    {
      for i := 0 to |given|
        invariant Valid() && state == old(state).(consents := state.consents)
      {
        SetSyntheticConsent(given[i]);
      }
    }
  }

  ghost predicate RoutesDiffer(transports: seq<FakeAccountingTransport>) {
    forall i, j :: 0 <= i < j < |transports| ==> transports[i].route != transports[j].route
  }

  /** Files the transports under their routes, unless two claim the same one. */
  method FileTransports(transports: seq<FakeAccountingTransport>)
    returns (adapters: Option<map<Route, FakeAccountingTransport>>, ghost shelves: seq<Books>, ghost shelfAt: map<Route, nat>)
    ensures adapters.Some? <==> RoutesDiffer(transports)
    ensures adapters.Some? ==>
              && Shelved(adapters.value, shelves, shelfAt)
              && (forall t :: t in transports ==> t.route in adapters.value && adapters.value[t.route] == t)
              && (forall q :: q in adapters.value ==> adapters.value[q] in transports)
  {
    var filed: map<Route, FakeAccountingTransport> := map[];
    shelves, shelfAt := [], map[];
    for n := 0 to |transports|
      invariant forall i :: 0 <= i < n ==> transports[i].route in filed && filed[transports[i].route] == transports[i]
      invariant forall q :: q in filed ==> filed[q] in transports[..n]
      invariant Shelved(filed, shelves, shelfAt)
      invariant RoutesDiffer(transports[..n])
    {
      var t := transports[n];
      if t.route in filed {
        assert filed[t.route] in transports[..n] && filed[t.route].route == t.route;
        return None, shelves, shelfAt;
      }
      if t.books in shelves {
        ghost var m :| 0 <= m < |shelves| && shelves[m] == t.books;
        shelfAt := shelfAt[t.route := m];
      } else {
        shelfAt := shelfAt[t.route := |shelves|];
        shelves := shelves + [t.books];
      }
      filed := filed[t.route := t];
    }
    assert transports[..|transports|] == transports;
    return Some(filed), shelves, shelfAt;
  }

  /** A new sandbox, unless two transports claim the same route. */
  method NewSandbox(h: Digests, enabled: bool, adapter: FakeAccountingTransport, alternatives: seq<FakeAccountingTransport>,
                    sources: seq<Source>, consents: seq<Consent>) returns (r: Result<AccountingExportSandbox, Code>)
    ensures r == Err(InvalidInput) <==> !RoutesDiffer([adapter] + alternatives)
    ensures r.Ok? ==>
              && fresh(r.value) && r.value.Valid() && r.value.adapter == adapter
              && (forall t :: t in alternatives ==> t.route in r.value.adapters && r.value.adapters[t.route] == t)
              && r.value.state.entries == [] && r.value.state.artifacts == map[] && r.value.state.enabled == enabled
              && SourcesKeyed(r.value.state)
  {
    var transports := [adapter] + alternatives;
    assert transports[0] == adapter;
    var adapters, shelves, shelfAt := FileTransports(transports);
    if adapters.None? { return Err(InvalidInput); }
    var sandbox := new AccountingExportSandbox(h, enabled, adapter, adapters.value, shelves, shelfAt);
    sandbox.AddSources(sources);
    sandbox.AddConsents(consents);
    return Ok(sandbox);
  }
}
